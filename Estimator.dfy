/** The estimator node: its latched inputs, its transform chain
    global -> map -> odom -> body, its mode flags and frame names, and the
    per-tick cycle that localizes, corrects the drift and publishes.
    Everything the node sends is appended to `outbox` in sending order. */
module Estimator {
  import opened Geometry
  import opened Messages
  import opened Localization

  class BasicStateEstimator {
    /** The fixed global->map offsets, sent on every tick. */
    var staticTransforms: seq<TransformStamped>
    var map2odom: TransformStamped
    var odom2base: TransformStamped
    /** Latched inputs. */
    var odomTwist: TwistStamped
    var gtPose: Pose
    var gtTwist: TwistStamped
    /** The last estimate in the global frame. */
    var globalRefPose: Pose
    var globalRefTwist: TwistStamped

    var odomOnly: bool
    var groundTruth: bool
    var sensorFusion: bool
    /** The readiness gate: ticks do nothing until an input has arrived. */
    var startRun: bool

    var globalRefFrame: string
    var mapFrame: string
    var odomFrame: string
    var baseFrame: string

    var outbox: seq<Output>

    function CurrentModes(): Modes
      reads this`odomOnly, this`groundTruth, this`sensorFusion
    {
      Modes(odomOnly, groundTruth, sensorFusion)
    }

    /** The node holds the chain an activation installs. */
    ghost predicate Activated()
      reads this`globalRefFrame, this`mapFrame, this`odomFrame, this`baseFrame,
            this`staticTransforms, this`map2odom, this`odom2base,
            this`odomOnly, this`groundTruth, this`sensorFusion
    {
      ChainInstalled(CurrentModes(), globalRefFrame, mapFrame, odomFrame, baseFrame,
                     staticTransforms, map2odom, odom2base)
    }

    /** A node as constructed: messages hold their defaults, no mode is on, the
        gate is closed and nothing has been sent. */
    constructor ()
      ensures staticTransforms == [] && outbox == []
      ensures map2odom == DefaultTransformStamped && odom2base == DefaultTransformStamped
      ensures odomTwist == DefaultTwistStamped && gtTwist == DefaultTwistStamped
      ensures globalRefTwist == DefaultTwistStamped
      ensures gtPose == DefaultPose && globalRefPose == DefaultPose
      ensures !odomOnly && !groundTruth && !sensorFusion && !startRun
      ensures globalRefFrame == "" && mapFrame == "" && odomFrame == "" && baseFrame == ""
    {
      staticTransforms := [];
      map2odom, odom2base := DefaultTransformStamped, DefaultTransformStamped;
      odomTwist, gtTwist, globalRefTwist := DefaultTwistStamped, DefaultTwistStamped, DefaultTwistStamped;
      gtPose, globalRefPose := DefaultPose, DefaultPose;
      odomOnly, groundTruth, sensorFusion, startRun := false, false, false, false;
      globalRefFrame, mapFrame, odomFrame, baseFrame := "", "", "", "";
      outbox := [];
    }

    /** Activation: resolve the modes from the parameters, name the frames in
        namespace `ns` with the naming helper `tfName`, install the zero
        global->map offset, link the two dynamic transforms and close the gate.
        When no base frame is given and `ns` is empty, naming the body frame
        fails (`ok` is false) after the modes, the other frame names and the
        cleared offset list are already in place. */
    method SetupTfTree(config: Config, ns: string, tfName: (string, string) -> string) returns (ok: bool)
      modifies this`odomOnly, this`groundTruth, this`sensorFusion, this`startRun,
               this`staticTransforms, this`globalRefFrame, this`mapFrame, this`odomFrame,
               this`baseFrame, this`map2odom, this`odom2base
      ensures CurrentModes() == ResolveModes(config)
      ensures globalRefFrame == GlobalFrame
      ensures mapFrame == tfName(ns, "map") && odomFrame == tfName(ns, "odom")
      ensures ok == BodyFrameName(ns, config.baseFrame, tfName).Some?
      ensures ok ==>
                && baseFrame == BodyFrameName(ns, config.baseFrame, tfName).value
                && staticTransforms == [ZeroOffset(GlobalFrame, mapFrame)]
                && map2odom == InitLink(old(map2odom), mapFrame, odomFrame)
                && odom2base == InitLink(old(odom2base), odomFrame, baseFrame)
                && !startRun
                && Activated()
      ensures !ok ==>
                && staticTransforms == [] && baseFrame == old(baseFrame)
                && map2odom == old(map2odom) && odom2base == old(odom2base)
                && startRun == old(startRun)
    {
      var modes := ResolveModes(config);
      odomOnly, groundTruth, sensorFusion := modes.odomOnly, modes.groundTruth, modes.sensorFusion;
      staticTransforms := [];
      globalRefFrame := GlobalFrame;
      mapFrame := tfName(ns, "map");
      odomFrame := tfName(ns, "odom");
      var body := BodyFrameName(ns, config.baseFrame, tfName);
      if body.None? {
        return false;
      }
      baseFrame := body.value;
      GetStartingPose(globalRefFrame, mapFrame);
      map2odom := InitLink(map2odom, mapFrame, odomFrame);
      odom2base := InitLink(odom2base, odomFrame, baseFrame);
      startRun := false;
      ok := true;
    }

    /** The starting pose of the map in the global frame: for now always the
        zero offset, appended to the fixed transforms. */
    method GetStartingPose(globalFrame: string, mapName: string)
      modifies this`staticTransforms
      ensures staticTransforms == old(staticTransforms) + [ZeroOffset(globalFrame, mapName)]
    {
      staticTransforms := staticTransforms + [ZeroOffset(globalFrame, mapName)];
    }

    /** An odometry sample: its pose becomes odom->body, its twist the latched
        odometry twist (labelled with the odom frame), and the gate opens. */
    method OdomCallback(msg: Odometry)
      modifies this`odom2base, this`odomTwist, this`startRun
      ensures odom2base == old(odom2base).(transform := PoseToTransform(msg.pose))
      ensures odomTwist == TwistStamped(old(odomTwist).header.(frameId := odomFrame), msg.twist)
      ensures startRun
      ensures old(Activated()) ==> Activated()
    {
      odom2base := odom2base.(transform := PoseToTransform(msg.pose));
      odomTwist := TwistStamped(odomTwist.header.(frameId := odomFrame), msg.twist);
      startRun := true;
    }

    /** A ground-truth pose: latched as it is, and the gate opens. */
    method GtPoseCallback(msg: PoseStamped)
      modifies this`gtPose, this`startRun
      ensures gtPose == msg.pose && startRun
    {
      gtPose := msg.pose;
      startRun := true;
    }

    /** A ground-truth twist: its frame label and twist are latched (its stamp
        is not), and the gate opens. */
    method GtTwistCallback(msg: TwistStamped)
      modifies this`gtTwist, this`startRun
      ensures gtTwist == TwistStamped(old(gtTwist).header.(frameId := msg.header.frameId), msg.twist)
      ensures startRun
    {
      gtTwist := TwistStamped(gtTwist.header.(frameId := msg.header.frameId), msg.twist);
      startRun := true;
    }

    /** The tick's map->body estimate; in ground-truth mode it is also written
        into odom->body. */
    method CalculateLocalization() returns (mapToBody: Transform)
      modifies this`odom2base
      ensures mapToBody == Localize(CurrentModes(), old(odom2base.transform), gtPose)
      ensures odom2base == old(odom2base).(transform := LocalizedOdomLink(CurrentModes(), old(odom2base.transform), gtPose))
      ensures old(Activated()) ==> Activated()
    {
      mapToBody := IdentityTransform;
      if odomOnly {
        mapToBody := odom2base.transform;
      }
      if groundTruth {
        mapToBody := PoseToTransform(gtPose);
        odom2base := odom2base.(transform := mapToBody);
      }
      if sensorFusion {
        // the sensor-fusion estimate is not implemented
      }
    }

    /** Writes into map->odom the drift that reconciles `mapToBody` with
        `odomToBody`; its header and child frame are kept. */
    method UpdateOdomTfDrift(odomToBody: Transform, mapToBody: Transform)
      modifies this`map2odom
      ensures map2odom == old(map2odom).(transform := DriftBetween(odomToBody, mapToBody))
      ensures Add(map2odom.transform.translation, odomToBody.translation) == mapToBody.translation
      ensures old(Activated()) ==> Activated()
    {
      var translation := Sub(mapToBody.translation, odomToBody.translation);
      var rotation := Mul(mapToBody.rotation, Conjugate(odomToBody.rotation));
      map2odom := map2odom.(transform := Transform(translation, rotation));
    }

    /** Stamps every fixed transform in place and sends it, then stamps and
        sends map->odom and odom->body, all with the one time `now`. */
    method PublishTfs(now: Time)
      modifies this`staticTransforms, this`map2odom, this`odom2base, this`outbox
      ensures staticTransforms == Restamp(old(staticTransforms), now)
      ensures map2odom == Stamped(old(map2odom), now) && odom2base == Stamped(old(odom2base), now)
      ensures outbox == old(outbox) + TfBatch(old(staticTransforms), old(map2odom), old(odom2base), now)
    {
      var i := 0;
      while i < |staticTransforms|
        invariant 0 <= i <= |staticTransforms| == |old(staticTransforms)|
        invariant forall k :: 0 <= k < i ==> staticTransforms[k] == Stamped(old(staticTransforms)[k], now)
        invariant forall k :: i <= k < |staticTransforms| ==> staticTransforms[k] == old(staticTransforms)[k]
        invariant outbox == old(outbox) + StaticOutputs(staticTransforms[..i])
        invariant map2odom == old(map2odom) && odom2base == old(odom2base)
      {
        staticTransforms := staticTransforms[i := Stamped(staticTransforms[i], now)];
        outbox := outbox + [StaticTf(staticTransforms[i])];
        assert staticTransforms[..i + 1] == staticTransforms[..i] + [staticTransforms[i]];
        StaticOutputsSnoc(staticTransforms[..i], staticTransforms[i]);
        i := i + 1;
      }
      RestampPointwise(old(staticTransforms), now);
      assert staticTransforms == staticTransforms[..i];
      map2odom := Stamped(map2odom, now);
      outbox := outbox + [DynamicTf(map2odom)];
      odom2base := Stamped(odom2base, now);
      outbox := outbox + [DynamicTf(odom2base)];
    }

    /** Refreshes the global-frame estimate from the global->body transform
        `lookup` (None when the lookup fails) and from the latched twists;
        `toEnu` converts body-axis velocities to east-north-up. */
    method GetGlobalRefState(lookup: Option<Transform>, toEnu: (Quaternion, Vector3) -> Vector3)
      modifies this`globalRefPose, this`globalRefTwist
      ensures globalRefPose == GlobalRefPose(lookup, old(globalRefPose))
      ensures globalRefTwist == GlobalRefTwist(CurrentModes(), globalRefFrame, globalRefPose.orientation,
                                               odomTwist, gtTwist, old(globalRefTwist), toEnu)
    {
      if lookup.Some? {
        globalRefPose := Pose(lookup.value.translation, lookup.value.rotation);
      }
      if odomOnly {
        var linear := toEnu(globalRefPose.orientation, odomTwist.twist.linear);
        globalRefTwist := TwistStamped(globalRefTwist.header.(frameId := globalRefFrame),
                                       Twist(linear, odomTwist.twist.angular));
      }
      if groundTruth {
        globalRefTwist := gtTwist;
      }
      if sensorFusion {
        // the sensor-fusion twist is not implemented
      }
    }

    /** The pose estimate message: stamped `now`, in the global frame. */
    function PoseStampedMsg(now: Time): (msg: PoseStamped)
      reads this`globalRefFrame, this`globalRefPose
      ensures msg.header.stamp == now && msg.header.frameId == globalRefFrame
      ensures msg.pose == globalRefPose
    {
      PoseStamped(Header(now, globalRefFrame), Pose(globalRefPose.position, globalRefPose.orientation))
    }

    /** The twist estimate message: stamped `now`, labelled with the frame of
        the global twist. */
    function TwistStampedMsg(now: Time): (msg: TwistStamped)
      reads this`globalRefTwist
      ensures msg.header.stamp == now && msg.header.frameId == globalRefTwist.header.frameId
      ensures msg.twist == globalRefTwist.twist
    {
      TwistStamped(Header(now, globalRefTwist.header.frameId),
                   Twist(globalRefTwist.twist.linear, globalRefTwist.twist.angular))
    }

    method PublishStateEstimation(now: Time)
      modifies this`outbox
      ensures outbox == old(outbox) + [PoseOut(PoseStampedMsg(now))] + [TwistOut(TwistStampedMsg(now))]
    {
      outbox := outbox + [PoseOut(PoseStampedMsg(now))];
      outbox := outbox + [TwistOut(TwistStampedMsg(now))];
    }

    /** One tick. Closed gate: nothing changes and nothing is sent. Open gate:
        localize, write the drift into map->odom, send the transform chain
        stamped `tfStamp`, refresh the global estimate and send it stamped
        `stateStamp`. */
    method Run(tfStamp: Time, stateStamp: Time, lookup: Option<Transform>,
               toEnu: (Quaternion, Vector3) -> Vector3)
      modifies this`staticTransforms, this`map2odom, this`odom2base, this`outbox,
               this`globalRefPose, this`globalRefTwist
      ensures !old(startRun) ==> unchanged(this)
      ensures old(startRun) ==> staticTransforms == Restamp(old(staticTransforms), tfStamp)
      ensures old(startRun) ==>
                odom2base == Stamped(old(odom2base).(transform := LocalizedOdomLink(CurrentModes(), old(odom2base.transform), gtPose)), tfStamp)
      ensures old(startRun) ==>
                map2odom == Stamped(TickMapLink(CurrentModes(), old(map2odom), old(odom2base.transform), gtPose), tfStamp)
      ensures old(startRun) ==> globalRefPose == GlobalRefPose(lookup, old(globalRefPose))
      ensures old(startRun) ==>
                globalRefTwist == GlobalRefTwist(CurrentModes(), globalRefFrame, globalRefPose.orientation,
                                                 odomTwist, gtTwist, old(globalRefTwist), toEnu)
      ensures old(startRun) ==>
                outbox == old(outbox)
                          + TfBatch(old(staticTransforms),
                                    TickMapLink(CurrentModes(), old(map2odom), old(odom2base.transform), gtPose),
                                    old(odom2base).(transform := LocalizedOdomLink(CurrentModes(), old(odom2base.transform), gtPose)),
                                    tfStamp)
                          + [PoseOut(PoseStampedMsg(stateStamp))] + [TwistOut(TwistStampedMsg(stateStamp))]
    {
      if !startRun {
        return;
      }
      var mapToBody := CalculateLocalization();
      UpdateOdomTfDrift(odom2base.transform, mapToBody);
      PublishTfs(tfStamp);
      GetGlobalRefState(lookup, toEnu);
      PublishStateEstimation(stateStamp);
    }
  }
}
