/**
  The point-cloud effect manager (VFXMan of Assets/VFX): it keeps one visual
  effect per AR mesh that is currently available, so that the keys of its
  map are always the current mesh set, reuses the effect of a mesh it already
  knows, and writes into every effect its mesh, the mask-ball radius driven
  by the two hands, and the fingertip ray hits under parameter numbers 1..10.

  Meshes are identified by `MeshId`; the AR mesh list is a sequence of
  entries that may be null or have no mesh. Transforms, materials and the
  debug text are not part of this model.
*/
module VfxMap {
  import opened EngineMath
  import opened Wrappers
  import opened Strings
  import HandRays

  /** The identity of a MeshFilter. */
  type MeshId = nat

  /** An entry of the AR mesh list: a null filter, or a filter whose mesh may be missing. */
  datatype MeshEntry = NullFilter | Filter(id: MeshId, hasMesh: bool)

  /** What the hand tracker reports for the mask ball. */
  datatype HandPose = HandPose(handsDistance: real, palmAngle: real)

  /** A fingertip ray hit: where it hit and the surface normal there. */
  datatype Hit = Hit(point: Vec3, normal: Vec3)

  /**
    A visual effect instance, reduced to the parameters the manager writes:
    `serial` numbers the instances in creation order and stands for the
    object's identity; `mesh` is "PointCloudMesh", `maskBall` is "MaskBall",
    and `fingerHits` holds "finger k" and "fingerNormal k" by parameter number k.
  */
  datatype Effect = Effect(serial: nat, mesh: Option<MeshId>, maskBall: Option<real>, fingerHits: map<int, Hit>)

  /** A newly instantiated effect: no parameter set yet. */
  function NewEffect(serial: nat): (e: Effect)
    ensures e.serial == serial && e.mesh.None? && e.maskBall.None? && e.fingerHits == map[]
  {
    Effect(serial, None, None, map[])
  }

  /** The hit loop of CreateVFX4Mesh: each hit is written under its slot's parameter number, later hits last. */
  method HitParameters(hits: seq<(string, Hit)>) returns (params: map<int, Hit>)
    requires Decodable(hits)
    ensures params == HitParams(hits)
  {
    params := map[];
    for j := 0 to |hits|
      invariant params == HitParams(hits[..j])
    {
      assert hits[..j + 1][..j] == hits[..j];
      var slot := HitSlot(hits[j].0);
      params := params[slot.value + 1 := hits[j].1];
    }
    assert hits[..|hits|] == hits;
  }

  // ------------------------------------------------------------ nearby meshes

  /** The meshes GetNearbyMeshes returns: the ids of the non-null filters with a mesh, in list order. */
  function WithMesh(meshes: seq<MeshEntry>): seq<MeshId> {
    if |meshes| == 0 then []
    else
      var last := meshes[|meshes| - 1];
      WithMesh(meshes[..|meshes| - 1]) + (if last.Filter? && last.hasMesh then [last.id] else [])
  }

  /** A mesh is nearby exactly when some non-null entry of the list carries it with a mesh. */
  lemma {:induction false} WithMeshMembers(meshes: seq<MeshEntry>, m: MeshId)
    ensures m in WithMesh(meshes) <==> exists i :: 0 <= i < |meshes| && meshes[i] == Filter(m, true)
  {
    if |meshes| > 0 {
      var init := meshes[..|meshes| - 1];
      WithMeshMembers(init, m);
      if m in WithMesh(init) {
        var i :| 0 <= i < |init| && init[i] == Filter(m, true);
        assert meshes[i] == Filter(m, true);
      }
      if exists i :: 0 <= i < |meshes| && meshes[i] == Filter(m, true) {
        var i :| 0 <= i < |meshes| && meshes[i] == Filter(m, true);
        if i < |meshes| - 1 {
          assert init[i] == Filter(m, true);
        }
      }
    }
  }

  /** A list without null filters or missing meshes is returned whole, in its order. */
  lemma {:induction false} WithMeshOfComplete(meshes: seq<MeshEntry>)
    requires forall i :: 0 <= i < |meshes| ==> meshes[i].Filter? && meshes[i].hasMesh
    ensures |WithMesh(meshes)| == |meshes|
    ensures forall i :: 0 <= i < |meshes| ==> WithMesh(meshes)[i] == meshes[i].id
  {
    if |meshes| > 0 {
      WithMeshOfComplete(meshes[..|meshes| - 1]);
    }
  }

  /** GetNearbyMeshes: skip null filters and filters without a mesh, keep the others in order. */
  method GetNearbyMeshes(meshes: seq<MeshEntry>) returns (nearby: seq<MeshId>)
    ensures nearby == WithMesh(meshes)
  {
    nearby := [];
    for i := 0 to |meshes|
      invariant nearby == WithMesh(meshes[..i])
    {
      assert meshes[..i + 1][..i] == meshes[..i];
      if meshes[i].NullFilter? || !meshes[i].hasMesh {
        continue;
      }
      nearby := nearby + [meshes[i].id];
    }
    assert meshes[..|meshes|] == meshes;
  }

  // ------------------------------------------------------------ reconciliation

  /** The entries of the map whose mesh is still nearby. */
  function Retained(vfxMap: map<MeshId, Effect>, nearby: seq<MeshId>): (kept: map<MeshId, Effect>)
    ensures kept.Keys == vfxMap.Keys * (set m | m in nearby)
    ensures forall m :: m in kept ==> kept[m] == vfxMap[m]
  {
    map m | m in vfxMap && m in nearby :: vfxMap[m]
  }

  /** The first loop of CreateVFX4Mesh: over a snapshot of the map, remove every mesh no longer nearby. */
  method RemoveStale(vfxMap: map<MeshId, Effect>, nearby: seq<MeshId>) returns (kept: map<MeshId, Effect>)
    ensures kept == Retained(vfxMap, nearby)
  {
    kept := vfxMap;
    var snapshot := vfxMap.Keys;
    while snapshot != {}
      invariant snapshot <= vfxMap.Keys
      invariant kept.Keys <= vfxMap.Keys
      invariant forall m :: m in kept ==> kept[m] == vfxMap[m]
      invariant forall m :: m in vfxMap && m !in snapshot ==> (m in kept <==> m in nearby)
      invariant forall m :: m in snapshot ==> m in kept
      decreases snapshot
    {
      var m :| m in snapshot;
      if m !in nearby {
        kept := kept - {m};
      }
      snapshot := snapshot - {m};
    }
  }

  // ------------------------------------------------------------ hit keys

  /**
    The slot CreateVFX4Mesh decodes from a hit key: split on '_', the first
    part "Left" counts 0 and anything else 5, plus the finger index of the
    second part. A key without '_' has no second part, and indexing it throws.
  */
  function HitSlot(key: string): (slot: Option<int>)
    ensures slot.Some? ==> -1 <= slot.value < 2 * HandRays.FingerCount
  {
    var parts := Split(key, '_');
    if |parts| < 2 then None
    else Some((if parts[0] == "Left" then 0 else 5) + HandRays.FingerIndex(Some(parts[1])))
  }

  /** Every key of the hit list decodes. */
  predicate Decodable(hits: seq<(string, Hit)>) {
    forall j :: 0 <= j < |hits| ==> HitSlot(hits[j].0).Some?
  }

  /** The parameters the hit loop writes: parameter slot + 1 gets the hit, a later hit on the same slot winning. */
  function HitParams(hits: seq<(string, Hit)>): map<int, Hit>
    requires Decodable(hits)
  {
    if |hits| == 0 then map[]
    else
      var last := hits[|hits| - 1];
      HitParams(hits[..|hits| - 1])[HitSlot(last.0).value + 1 := last.1]
  }

  /** The key of a ray decodes to that ray's line-renderer slot, so its hit lands on parameter slot + 1 in 1..10. */
  lemma HitSlotOfRayKey(left: bool, fingerIndex: int)
    requires 0 <= fingerIndex < HandRays.FingerCount
    ensures HitSlot(HandRays.RayKey(left, fingerIndex)) == Some(HandRays.LineIndex(left, fingerIndex))
    ensures 1 <= HandRays.LineIndex(left, fingerIndex) + 1 <= 2 * HandRays.FingerCount
  {
    var hand := HandRays.HandName(left);
    var finger := HandRays.FingerName(fingerIndex);
    assert '_' !in hand;
    assert '_' !in finger by {
      assert finger in {"Thumb", "Index", "Middle", "Ring", "Little"};
    }
    SplitAtFirst(hand, '_', finger);
    SplitWithoutSeparator(finger, '_');
    assert Split(HandRays.RayKey(left, fingerIndex), '_') == [hand, finger];
    HandRays.FingerNameRoundTrip(fingerIndex);
  }

  /** Hits whose keys are ray keys write only parameters 1..10. */
  lemma {:induction false} HitParamsOfRays(hits: seq<(string, Hit)>)
    requires Decodable(hits)
    requires forall j :: 0 <= j < |hits| ==> 0 <= HitSlot(hits[j].0).value < 2 * HandRays.FingerCount
    ensures forall k :: k in HitParams(hits) ==> 1 <= k <= 2 * HandRays.FingerCount
  {
    if |hits| > 0 {
      HitParamsOfRays(hits[..|hits| - 1]);
    }
  }

  /** The parameter number hit `j` is written under. */
  function ParamOf(hits: seq<(string, Hit)>, j: int): int
    requires Decodable(hits) && 0 <= j < |hits|
  {
    HitSlot(hits[j].0).value + 1
  }

  /** A parameter is written exactly when some hit's slot names it. */
  lemma {:induction false} HitParamsKeys(hits: seq<(string, Hit)>, k: int)
    requires Decodable(hits)
    ensures k in HitParams(hits) <==> exists j :: 0 <= j < |hits| && ParamOf(hits, j) == k
  {
    if |hits| > 0 {
      var init := hits[..|hits| - 1];
      var last := ParamOf(hits, |hits| - 1);
      assert HitParams(hits) == HitParams(init)[last := hits[|hits| - 1].1];
      HitParamsKeys(init, k);
      if exists j :: 0 <= j < |init| && ParamOf(init, j) == k {
        var j :| 0 <= j < |init| && ParamOf(init, j) == k;
        assert ParamOf(hits, j) == k;
      }
      if exists j :: 0 <= j < |hits| && ParamOf(hits, j) == k {
        var j :| 0 <= j < |hits| && ParamOf(hits, j) == k;
        if j < |init| {
          assert ParamOf(init, j) == k;
        }
      }
    }
  }

  /** Of several hits on one parameter, the last one is what the parameter holds. */
  lemma {:induction false} HitParamsLastWins(hits: seq<(string, Hit)>, j: int)
    requires Decodable(hits) && 0 <= j < |hits|
    requires forall l :: j < l < |hits| ==> ParamOf(hits, l) != ParamOf(hits, j)
    ensures ParamOf(hits, j) in HitParams(hits)
    ensures HitParams(hits)[ParamOf(hits, j)] == hits[j].1
  {
    var init := hits[..|hits| - 1];
    var last := ParamOf(hits, |hits| - 1);
    assert HitParams(hits) == HitParams(init)[last := hits[|hits| - 1].1];
    if j < |hits| - 1 {
      forall l | j < l < |init|
        ensures ParamOf(init, l) != ParamOf(init, j)
      {
        assert ParamOf(init, l) == ParamOf(hits, l);
      }
      HitParamsLastWins(init, j);
      assert ParamOf(init, j) == ParamOf(hits, j);
    }
  }

  // ------------------------------------------------------------ mask ball

  /** The threshold on the distance between the hands below which they count as together. */
  const HandsTogether: real := 0.1

  /** The mask-ball radius before clamping: 0.5 at a palm angle of 20 degrees, growing by 0.5 per 40 degrees. */
  function PalmRadius(palmAngle: real): real {
    (palmAngle - 20.0) / 40.0 * 0.5 + 0.5
  }

  /**
    The ball radius of this manager: with real hand data, the palm radius kept
    in 0.5..1.0 while the hands are together and 0 otherwise; 2.0 without real
    hand data.
  */
  function BallRadius(useRealHandData: bool, hand: HandPose): (r: real)
    ensures !useRealHandData ==> r == 2.0
    ensures useRealHandData && hand.handsDistance < HandsTogether ==> 0.5 <= r <= 1.0
    ensures useRealHandData && hand.handsDistance >= HandsTogether ==> r == 0.0
  {
    if useRealHandData then
      if hand.handsDistance < HandsTogether then
        var radius := PalmRadius(hand.palmAngle);
        var radius1 := if radius >= 0.5 then radius else 0.5;
        if radius1 <= 1.0 then radius1 else 1.0
      else 0.0
    else 2.0
  }

  /** With the hands together the radius is the palm radius clamped to 0.5..1.0: 0.5 up to 20 degrees, 1.0 from 60. */
  lemma BallRadiusIsClampedPalmRadius(hand: HandPose)
    requires hand.handsDistance < HandsTogether
    ensures BallRadius(true, hand) == Clamp(PalmRadius(hand.palmAngle), 0.5, 1.0)
    ensures hand.palmAngle <= 20.0 ==> BallRadius(true, hand) == 0.5
    ensures hand.palmAngle >= 60.0 ==> BallRadius(true, hand) == 1.0
  {
  }

  /** Opening the palms never shrinks the ball. */
  lemma BallRadiusMonotone(distance: real, angle1: real, angle2: real)
    requires angle1 <= angle2
    ensures BallRadius(true, HandPose(distance, angle1)) <= BallRadius(true, HandPose(distance, angle2))
  {
    if distance < HandsTogether {
      ClampMonotone(PalmRadius(angle1), PalmRadius(angle2), 0.5, 1.0);
    }
  }

  // ------------------------------------------------------------ the manager

  /**
    The effect of mesh `m` once CreateVFX4Mesh has configured it: the same
    instance, showing mesh `m`, with real hand data the mask ball of this
    frame, and the hit parameters `params` written over the ones it had.
  */
  function Configured(e: Effect, m: MeshId, useRealHandData: bool, radius: real, params: map<int, Hit>): (c: Effect)
    ensures c.serial == e.serial && c.mesh == Some(m)
    ensures c.maskBall == if useRealHandData then Some(radius) else e.maskBall
    ensures c.fingerHits.Keys == e.fingerHits.Keys + params.Keys
    ensures forall k :: k in params ==> c.fingerHits[k] == params[k]
    ensures forall k :: k in e.fingerHits && k !in params ==> c.fingerHits[k] == e.fingerHits[k]
  {
    e.(mesh := Some(m),
       maskBall := if useRealHandData then Some(radius) else e.maskBall,
       fingerHits := e.fingerHits + params)
  }

  /** Configuring twice with the same data is configuring once, so a mesh listed twice ends up as if listed once. */
  lemma ConfiguredTwice(e: Effect, m: MeshId, useRealHandData: bool, radius: real, params: map<int, Hit>)
    ensures var c := Configured(e, m, useRealHandData, radius, params);
      Configured(c, m, useRealHandData, radius, params) == c
  {
    var c := Configured(e, m, useRealHandData, radius, params);
    assert c.fingerHits + params == c.fingerHits;
  }

  /** The effect a nearby mesh starts from: its effect in the map, else a new instance. */
  function Base(vfxMap: map<MeshId, Effect>, m: MeshId, serial: nat): Effect {
    if m in vfxMap then vfxMap[m] else NewEffect(serial)
  }

  /** The effects by mesh, with the number of instances created so far (the serial of the next one). */
  datatype Effects = Effects(byMesh: map<MeshId, Effect>, instantiated: nat)

  /** Every effect was instantiated before, and no two meshes share an instance. */
  predicate SerialsValid(s: Effects) {
    && (forall m :: m in s.byMesh ==> s.byMesh[m].serial < s.instantiated)
    && (forall a, b :: a in s.byMesh && b in s.byMesh && a != b ==> s.byMesh[a].serial != s.byMesh[b].serial)
  }

  /** One pass of CreateVFX4Mesh's second loop: mesh `mf` gets its effect, a new instance if it has none, configured. */
  function SyncStep(s: Effects, mf: MeshId, useRealHandData: bool, radius: real, params: map<int, Hit>): Effects {
    var configured := Configured(Base(s.byMesh, mf, s.instantiated), mf, useRealHandData, radius, params);
    Effects(s.byMesh[mf := configured], if mf in s.byMesh then s.instantiated else s.instantiated + 1)
  }

  /** The whole second loop over the nearby meshes, in order. */
  function Sync(s: Effects, nearby: seq<MeshId>, useRealHandData: bool, radius: real, params: map<int, Hit>): Effects {
    if |nearby| == 0 then s
    else SyncStep(Sync(s, nearby[..|nearby| - 1], useRealHandData, radius, params), nearby[|nearby| - 1],
                  useRealHandData, radius, params)
  }

  /** After the loop every nearby mesh has an effect, no other mesh gains one, and the instance count never falls. */
  lemma {:induction false} SyncKeys(s: Effects, nearby: seq<MeshId>, useRealHandData: bool, radius: real, params: map<int, Hit>)
    ensures var r := Sync(s, nearby, useRealHandData, radius, params);
      && r.byMesh.Keys == s.byMesh.Keys + (set m | m in nearby)
      && s.instantiated <= r.instantiated
  {
    if |nearby| > 0 {
      var init := nearby[..|nearby| - 1];
      assert nearby == init + [nearby[|nearby| - 1]];
      SyncKeys(s, init, useRealHandData, radius, params);
    }
  }

  /** New instances get serials never used before, so no two meshes end up sharing an instance. */
  lemma {:induction false} SyncSerials(s: Effects, nearby: seq<MeshId>, useRealHandData: bool, radius: real, params: map<int, Hit>)
    requires SerialsValid(s)
    ensures var r := Sync(s, nearby, useRealHandData, radius, params);
      && SerialsValid(r)
      && (forall m :: m in r.byMesh && m !in s.byMesh ==> s.instantiated <= r.byMesh[m].serial)
  {
    if |nearby| > 0 {
      var init := nearby[..|nearby| - 1];
      SyncSerials(s, init, useRealHandData, radius, params);
      SyncKeys(s, init, useRealHandData, radius, params);
    }
  }

  /** The effects of meshes not listed are untouched. */
  lemma {:induction false} SyncUntouched(s: Effects, nearby: seq<MeshId>, useRealHandData: bool, radius: real, params: map<int, Hit>)
    ensures var r := Sync(s, nearby, useRealHandData, radius, params);
      forall m :: m in s.byMesh && m !in nearby ==> m in r.byMesh && r.byMesh[m] == s.byMesh[m]
  {
    if |nearby| > 0 {
      var init := nearby[..|nearby| - 1];
      assert nearby == init + [nearby[|nearby| - 1]];
      SyncUntouched(s, init, useRealHandData, radius, params);
    }
  }

  /**
    A mesh that had an effect keeps that instance, and every nearby mesh's
    effect is its starting effect configured once: a mesh listed twice ends
    up configured the same.
  */
  lemma {:induction false} SyncConfigures(s: Effects, nearby: seq<MeshId>, useRealHandData: bool, radius: real, params: map<int, Hit>)
    ensures var r := Sync(s, nearby, useRealHandData, radius, params);
      forall m :: m in r.byMesh && m in nearby ==>
        r.byMesh[m] == Configured(Base(s.byMesh, m, r.byMesh[m].serial), m, useRealHandData, radius, params)
  {
    if |nearby| > 0 {
      var init := nearby[..|nearby| - 1];
      var mf := nearby[|nearby| - 1];
      assert nearby == init + [mf];
      SyncConfigures(s, init, useRealHandData, radius, params);
      SyncKeys(s, init, useRealHandData, radius, params);
      SyncUntouched(s, init, useRealHandData, radius, params);
      var p := Sync(s, init, useRealHandData, radius, params);
      if mf in p.byMesh && mf in init {
        ConfiguredTwice(Base(s.byMesh, mf, p.byMesh[mf].serial), mf, useRealHandData, radius, params);
      }
    }
  }

  class VfxManager {
    var vfxMap: map<MeshId, Effect>
    /** How many effects were instantiated so far: the serial of the next one. */
    var instantiated: nat
    var ballRadius: real
    /** Off in the editor, on the device. */
    const useRealHandData: bool

    ghost predicate Valid()
      reads this
    {
      SerialsValid(Effects(vfxMap, instantiated))
    }

    constructor (useRealHandData: bool)
      ensures Valid() && vfxMap == map[] && instantiated == 0 && this.useRealHandData == useRealHandData
    {
      vfxMap := map[];
      instantiated := 0;
      ballRadius := 0.0;
      this.useRealHandData := useRealHandData;
    }

    /**
      CreateVFX4Mesh: nothing without a mesh manager and camera or without a
      nearby mesh; otherwise drop the effects of meshes no longer nearby, then
      give every nearby mesh an effect and configure it. The ball radius and
      the hit parameters are the same for every mesh of one call, so they are
      worked out once.
    */
    method CreateVFX4Mesh(available: bool, meshes: seq<MeshEntry>, hand: HandPose, hits: seq<(string, Hit)>)
      requires Valid() && Decodable(hits)
      modifies this`vfxMap, this`instantiated, this`ballRadius
      ensures Valid()
      ensures !available || |WithMesh(meshes)| == 0 ==>
                vfxMap == old(vfxMap) && instantiated == old(instantiated) && ballRadius == old(ballRadius)
      ensures available && |WithMesh(meshes)| > 0 ==>
                && ballRadius == BallRadius(useRealHandData, hand)
                && Effects(vfxMap, instantiated)
                   == Sync(Effects(Retained(old(vfxMap), WithMesh(meshes)), old(instantiated)), WithMesh(meshes),
                           useRealHandData, ballRadius, HitParams(hits))
                && vfxMap.Keys == (set m | m in WithMesh(meshes))
    {
      if !available {
        return;
      }
      var nearby := GetNearbyMeshes(meshes);
      if |nearby| == 0 {
        return;
      }
      vfxMap := RemoveStale(vfxMap, nearby);
      var params := HitParameters(hits);
      var radius := BallRadius(useRealHandData, hand);
      ghost var start := Effects(vfxMap, instantiated);
      for i := 0 to |nearby|
        invariant Effects(vfxMap, instantiated) == Sync(start, nearby[..i], useRealHandData, radius, params)
        invariant i > 0 ==> ballRadius == radius
      {
        assert nearby[..i + 1][..i] == nearby[..i];
        ConfigureMesh(nearby[i], radius, params);
      }
      assert nearby[..|nearby|] == nearby;
      SyncKeys(start, nearby, useRealHandData, radius, params);
      SyncSerials(start, nearby, useRealHandData, radius, params);
    }

    /** The body of CreateVFX4Mesh's second loop for one nearby mesh. */
    method ConfigureMesh(mf: MeshId, radius: real, params: map<int, Hit>)
      modifies this`vfxMap, this`instantiated, this`ballRadius
      ensures ballRadius == radius
      ensures Effects(vfxMap, instantiated)
              == SyncStep(Effects(old(vfxMap), old(instantiated)), mf, useRealHandData, radius, params)
    {
      if mf !in vfxMap {
        vfxMap := vfxMap[mf := NewEffect(instantiated)];
        instantiated := instantiated + 1;
      }
      ballRadius := radius;
      vfxMap := vfxMap[mf := Configured(vfxMap[mf], mf, useRealHandData, ballRadius, params)];
    }
  }
}
