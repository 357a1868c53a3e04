/** The decisions the estimator takes without touching its state: which
    estimation modes are on, how the body frame is named, which map->body
    estimate a tick uses, and which twist it reports in the global frame. */
module Localization {
  import opened Geometry
  import opened Messages

  datatype Option<T> = None | Some(value: T)

  /** The node parameters read at activation. */
  datatype Config = Config(odomOnly: bool, groundTruth: bool, sensorFusion: bool, baseFrame: string)

  /** The values the parameters are declared with. */
  const DeclaredDefaults: Config := Config(false, false, false, "base_link")

  /** The three mode flags; more than one may be set. */
  datatype Modes = Modes(odomOnly: bool, groundTruth: bool, sensorFusion: bool)

  /** The name of the outermost, fixed frame. */
  const GlobalFrame: string := "earth"

  /** Mode resolution: the flags are kept as given, and odometry-only mode is
      switched on when no flag is set at all. */
  function ResolveModes(c: Config): (m: Modes)
    ensures m.odomOnly || m.groundTruth || m.sensorFusion
    ensures m.groundTruth == c.groundTruth && m.sensorFusion == c.sensorFusion
    ensures c.odomOnly ==> m.odomOnly
    ensures (m.odomOnly && !c.odomOnly) <==> (!c.odomOnly && !c.groundTruth && !c.sensorFusion)
  {
    var m := Modes(c.odomOnly, c.groundTruth, c.sensorFusion);
    if !m.odomOnly && !m.groundTruth && !m.sensorFusion then m.(odomOnly := true) else m
  }

  /** With every parameter at its declared value the node runs in
      odometry-only mode. */
  lemma DeclaredDefaultsResolveToOdomOnly()
    ensures ResolveModes(DeclaredDefaults) == Modes(true, false, false)
  {
  }

  /** The body frame: with no base frame given, the namespace without its first
      character (a namespace is "/name"); this fails on an empty namespace,
      where dropping one character is out of range. Otherwise the name the
      frame-naming helper `tfName` derives from the namespace and base frame. */
  function BodyFrameName(ns: string, baseFrame: string, tfName: (string, string) -> string): (r: Option<string>)
    ensures baseFrame != "" ==> r == Some(tfName(ns, baseFrame))
    ensures baseFrame == "" ==> (r.Some? <==> ns != [])
    ensures baseFrame == "" && r.Some? ==> ns == [ns[0]] + r.value
  {
    if baseFrame == "" then
      if |ns| < 1 then None else Some(ns[1..])
    else
      Some(tfName(ns, baseFrame))
  }

  /** The map->body estimate of one tick. The mode blocks run in a fixed order,
      each overwriting the previous result: odometry, then ground truth, then
      sensor fusion (which does nothing). With no block applying the result
      is a fresh transform. */
  function Localize(m: Modes, odomToBody: Transform, gtPose: Pose): (r: Transform)
    ensures m.groundTruth ==> r == PoseToTransform(gtPose)
    ensures !m.groundTruth && m.odomOnly ==> r == odomToBody
    ensures !m.groundTruth && !m.odomOnly ==> r == IdentityTransform
  {
    var fromOdom := if m.odomOnly then odomToBody else IdentityTransform;
    var fromGroundTruth := if m.groundTruth then PoseToTransform(gtPose) else fromOdom;
    fromGroundTruth
  }

  /** No blending: the estimate is one source's value taken whole, and the
      sensor-fusion flag never changes it. */
  lemma LocalizeIsOneSource(m: Modes, odomToBody: Transform, gtPose: Pose)
    ensures var r := Localize(m, odomToBody, gtPose);
            r == odomToBody || r == PoseToTransform(gtPose) || r == IdentityTransform
    ensures Localize(m, odomToBody, gtPose) == Localize(m.(sensorFusion := !m.sensorFusion), odomToBody, gtPose)
  {
  }

  /** The odom->body link after localization: ground-truth mode overwrites it
      with the estimate. */
  function LocalizedOdomLink(m: Modes, odomToBody: Transform, gtPose: Pose): (r: Transform)
    ensures m.groundTruth ==> r == Localize(m, odomToBody, gtPose)
    ensures !m.groundTruth ==> r == odomToBody
  {
    if m.groundTruth then PoseToTransform(gtPose) else odomToBody
  }

  /** The map->odom link after the drift step of a tick. */
  function TickMapLink(m: Modes, mapToOdom: TransformStamped, odomToBody: Transform, gtPose: Pose): (r: TransformStamped)
    ensures r.header == mapToOdom.header && r.childFrameId == mapToOdom.childFrameId
    ensures Add(r.transform.translation, LocalizedOdomLink(m, odomToBody, gtPose).translation)
         == Localize(m, odomToBody, gtPose).translation
  {
    mapToOdom.(transform := DriftBetween(LocalizedOdomLink(m, odomToBody, gtPose), Localize(m, odomToBody, gtPose)))
  }

  /** In sensor-fusion-only mode the estimate is the fresh identity
      transform, so the drift step writes the inverse of odom->body's
      translation and the conjugate of its rotation into map->odom. */
  lemma SensorFusionTickDrift(m: Modes, mapToOdom: TransformStamped, odomToBody: Transform, gtPose: Pose)
    requires !m.odomOnly && !m.groundTruth
    ensures TickMapLink(m, mapToOdom, odomToBody, gtPose).transform
         == Transform(Sub(Zero, odomToBody.translation), Conjugate(odomToBody.rotation))
  {
    MulScalar(Conjugate(odomToBody.rotation), 1.0);
  }

  /** The transform chain an activation installs: the global frame is the
      fixed one, a single global->map offset with no displacement, map->odom
      and odom->body named after the frames, and at least one mode on. */
  ghost predicate ChainInstalled(m: Modes, globalFrame: string, mapFrame: string, odomFrame: string,
                                 bodyFrame: string, statics: seq<TransformStamped>,
                                 mapToOdom: TransformStamped, odomToBody: TransformStamped)
  {
    && globalFrame == GlobalFrame
    && |statics| == 1
    && statics[0].header.frameId == globalFrame && statics[0].childFrameId == mapFrame
    && statics[0].transform == IdentityTransform
    && mapToOdom.header.frameId == mapFrame && mapToOdom.childFrameId == odomFrame
    && odomToBody.header.frameId == odomFrame && odomToBody.childFrameId == bodyFrame
    && (m.odomOnly || m.groundTruth || m.sensorFusion)
  }

  /** A tick keeps the installed chain: it restamps the offset and replaces
      only the stamps and transforms of the two dynamic links. */
  lemma TickKeepsChain(m: Modes, globalFrame: string, mapFrame: string, odomFrame: string,
                       bodyFrame: string, statics: seq<TransformStamped>,
                       mapToOdom: TransformStamped, odomToBody: TransformStamped, gtPose: Pose, now: Time)
    requires ChainInstalled(m, globalFrame, mapFrame, odomFrame, bodyFrame, statics, mapToOdom, odomToBody)
    ensures ChainInstalled(m, globalFrame, mapFrame, odomFrame, bodyFrame, Restamp(statics, now),
                           Stamped(TickMapLink(m, mapToOdom, odomToBody.transform, gtPose), now),
                           Stamped(odomToBody.(transform := LocalizedOdomLink(m, odomToBody.transform, gtPose)), now))
  {
  }

  /** What a tick on an installed chain sends first is the whole tree as one
      snapshot: transforms linked parent to child from the global frame to
      the body frame, all carrying the tick's stamp. */
  lemma {:induction false} TickSendsStampedChain(m: Modes, globalFrame: string, mapFrame: string, odomFrame: string,
                                                 bodyFrame: string, statics: seq<TransformStamped>,
                                                 mapToOdom: TransformStamped, odomToBody: TransformStamped,
                                                 gtPose: Pose, now: Time)
    requires ChainInstalled(m, globalFrame, mapFrame, odomFrame, bodyFrame, statics, mapToOdom, odomToBody)
    ensures var r := TfBatch(statics, TickMapLink(m, mapToOdom, odomToBody.transform, gtPose),
                             odomToBody.(transform := LocalizedOdomLink(m, odomToBody.transform, gtPose)), now);
            && |r| == 3
            && (forall k :: 0 <= k < |r| ==> (r[k].StaticTf? || r[k].DynamicTf?) && r[k].tf.header.stamp == now)
            && (forall k :: 0 < k < |r| ==> r[k - 1].tf.childFrameId == r[k].tf.header.frameId)
            && r[0].tf.header.frameId == GlobalFrame && r[2].tf.childFrameId == bodyFrame
  {
    var mapLink := TickMapLink(m, mapToOdom, odomToBody.transform, gtPose);
    var odomLink := odomToBody.(transform := LocalizedOdomLink(m, odomToBody.transform, gtPose));
    var chain := statics + [mapLink, odomLink];
    assert chain[1] == mapLink && chain[2] == odomLink;
    TfBatchIsStampedChain(statics, mapLink, odomLink, now);
  }

  /** In odometry-only and in ground-truth mode the tick's estimate equals the
      odom->body link it is reconciled with, so the drift it writes into
      map->odom has no translation and a scalar rotation (the identity for a
      unit rotation): the drift correction never moves the map frame. */
  lemma {:induction false} TickDriftIsTrivial(m: Modes, odomToBody: Transform, gtPose: Pose)
    requires m.odomOnly || m.groundTruth
    ensures var estimate := Localize(m, odomToBody, gtPose);
            var drift := DriftBetween(LocalizedOdomLink(m, odomToBody, gtPose), estimate);
            drift.translation == Zero
            && drift.rotation == Quaternion(0.0, 0.0, 0.0, NormSquared(estimate.rotation))
  {
    var estimate := Localize(m, odomToBody, gtPose);
    assert LocalizedOdomLink(m, odomToBody, gtPose) == estimate;
    DriftOfSelf(estimate);
  }

  /** In those modes, with a unit estimate rotation, the transform tree's
      rigid chain of the new map->odom and odom->body links reproduces the
      estimate exactly. */
  lemma {:induction false} TickChainComposesExactly(m: Modes, odomToBody: Transform, gtPose: Pose)
    requires m.odomOnly || m.groundTruth
    requires NormSquared(Localize(m, odomToBody, gtPose).rotation) == 1.0
    ensures var estimate := Localize(m, odomToBody, gtPose);
            var link := LocalizedOdomLink(m, odomToBody, gtPose);
            Compose(DriftBetween(link, estimate), link) == estimate
  {
    var estimate := Localize(m, odomToBody, gtPose);
    var link := LocalizedOdomLink(m, odomToBody, gtPose);
    assert link == estimate;
    TickDriftIsTrivial(m, odomToBody, gtPose);
    assert DriftBetween(link, estimate).rotation == IdentityRotation;
    DriftChainsRigidlyWhenAligned(link, estimate);
  }

  /** The pose in the global frame: the looked-up global->body transform when
      the lookup succeeds, otherwise the previous pose. */
  function GlobalRefPose(lookup: Option<Transform>, previous: Pose): (p: Pose)
    ensures lookup.Some? ==> PoseToTransform(p) == lookup.value
    ensures lookup.None? ==> p == previous
  {
    if lookup.Some? then TransformToPose(lookup.value) else previous
  }

  /** The twist reported in the global frame, blocks again in fixed order:
      in odometry mode the odometry's linear velocity converted from the body's
      forward-left-up axes to east-north-up by `toEnu` at the global
      orientation, its angular velocity unconverted, relabelled to the global
      frame; in ground-truth mode the latched ground-truth twist as it is. */
  function GlobalRefTwist(m: Modes, globalFrame: string, orientation: Quaternion,
                          odomTwist: TwistStamped, gtTwist: TwistStamped, previous: TwistStamped,
                          toEnu: (Quaternion, Vector3) -> Vector3): (r: TwistStamped)
    ensures m.groundTruth ==> r == gtTwist
    ensures !m.groundTruth && m.odomOnly ==>
              r.header == previous.header.(frameId := globalFrame)
              && r.twist.linear == toEnu(orientation, odomTwist.twist.linear)
              && r.twist.angular == odomTwist.twist.angular
    ensures !m.groundTruth && !m.odomOnly ==> r == previous
  {
    var fromOdom :=
      if m.odomOnly then
        TwistStamped(previous.header.(frameId := globalFrame),
                     Twist(toEnu(orientation, odomTwist.twist.linear), odomTwist.twist.angular))
      else previous;
    if m.groundTruth then gtTwist else fromOdom
  }
}
