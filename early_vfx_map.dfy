/**
  The earlier point-cloud effect manager (VFXMan of LYF/VFX): the same
  reconciliation of one effect per available mesh as VfxMap, without the
  fingertip hits, and with a mask-ball radius that is always written and not
  clamped.
*/
module EarlyVfxMap {
  import opened EngineMath
  import opened VfxMap

  /** The mask-ball radius of this manager: the palm radius while the hands are together, 0 otherwise. */
  function EarlyBallRadius(hand: HandPose): (r: real)
    ensures hand.handsDistance >= HandsTogether ==> r == 0.0
  {
    if hand.handsDistance < HandsTogether then PalmRadius(hand.palmAngle) else 0.0
  }

  /**
    The later manager's radius (with real hand data) is this one clamped to
    0.5..1.0 while the hands are together; the two agree for palm angles
    from 20 to 60 degrees.
  */
  lemma ClampedRadiusRefinesEarly(hand: HandPose)
    ensures hand.handsDistance < HandsTogether ==> BallRadius(true, hand) == Clamp(EarlyBallRadius(hand), 0.5, 1.0)
    ensures hand.handsDistance >= HandsTogether ==> BallRadius(true, hand) == EarlyBallRadius(hand)
    ensures 20.0 <= hand.palmAngle <= 60.0 ==> BallRadius(true, hand) == EarlyBallRadius(hand)
  {
    if hand.handsDistance < HandsTogether {
      BallRadiusIsClampedPalmRadius(hand);
    }
  }

  /** Unclamped, the radius leaves 0.5..1.0: wide-open palms give 1.5, and angles below -20 degrees a negative radius. */
  lemma EarlyRadiusUnclamped()
    ensures EarlyBallRadius(HandPose(0.0, 100.0)) == 1.5
    ensures EarlyBallRadius(HandPose(0.0, -40.0)) < 0.0
  {
  }

  class EarlyVfxManager {
    var vfxMap: map<MeshId, Effect>
    /** How many effects were instantiated so far: the serial of the next one. */
    var instantiated: nat

    ghost predicate Valid()
      reads this
    {
      SerialsValid(Effects(vfxMap, instantiated))
    }

    constructor ()
      ensures Valid() && vfxMap == map[] && instantiated == 0
    {
      vfxMap := map[];
      instantiated := 0;
    }

    /**
      CreateVFX4Mesh: nothing without a mesh manager and camera or without a
      nearby mesh; otherwise drop the effects of meshes no longer nearby, then
      give every nearby mesh an effect (a new instance only for a mesh not in
      the map), its mesh and the mask ball.
    */
    method CreateVFX4Mesh(available: bool, meshes: seq<MeshEntry>, hand: HandPose)
      requires Valid()
      modifies this`vfxMap, this`instantiated
      ensures Valid()
      ensures !available || |WithMesh(meshes)| == 0 ==> vfxMap == old(vfxMap) && instantiated == old(instantiated)
      ensures available && |WithMesh(meshes)| > 0 ==>
                && Effects(vfxMap, instantiated)
                   == Sync(Effects(Retained(old(vfxMap), WithMesh(meshes)), old(instantiated)), WithMesh(meshes),
                           true, EarlyBallRadius(hand), map[])
                && vfxMap.Keys == (set m | m in WithMesh(meshes))
    {
      if !available {
        return;
      }
      var nearby := GetNearbyMeshes(meshes);
      if |nearby| == 0 {
        return;
      }
      vfxMap := RemoveStale(vfxMap, nearby);
      ghost var start := Effects(vfxMap, instantiated);
      for i := 0 to |nearby|
        invariant Effects(vfxMap, instantiated) == Sync(start, nearby[..i], true, EarlyBallRadius(hand), map[])
      {
        assert nearby[..i + 1][..i] == nearby[..i];
        var mf := nearby[i];
        if mf !in vfxMap {
          vfxMap := vfxMap[mf := NewEffect(instantiated)];
          instantiated := instantiated + 1;
        }
        var ballRadius := EarlyBallRadius(hand);
        vfxMap := vfxMap[mf := Configured(vfxMap[mf], mf, true, ballRadius, map[])];
      }
      assert nearby[..|nearby|] == nearby;
      SyncKeys(start, nearby, true, EarlyBallRadius(hand), map[]);
      SyncSerials(start, nearby, true, EarlyBallRadius(hand), map[]);
    }
  }
}
