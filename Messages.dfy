/** The stamped records the estimator keeps and sends (transform, twist and
    pose messages with a header), the odometry sample it receives, and what
    one publication of the transform chain sends, in order. */
module Messages {
  import opened Geometry

  /** A message time stamp in nanoseconds; 0 is the stamp of a header that was
      never stamped. */
  type Time = int

  datatype Header = Header(stamp: Time, frameId: string)

  const EmptyHeader: Header := Header(0, "")

  datatype TransformStamped = TransformStamped(header: Header, childFrameId: string, transform: Transform)

  datatype TwistStamped = TwistStamped(header: Header, twist: Twist)

  datatype PoseStamped = PoseStamped(header: Header, pose: Pose)

  /** An odometry sample: only its pose and twist are read (its header, child
      frame and covariances are not). */
  datatype Odometry = Odometry(pose: Pose, twist: Twist)

  /** Freshly constructed messages: empty header, zero vectors, identity rotation. */
  const DefaultTransformStamped: TransformStamped := TransformStamped(EmptyHeader, "", IdentityTransform)
  const DefaultTwistStamped: TwistStamped := TwistStamped(EmptyHeader, Twist(Zero, Zero))
  const DefaultPose: Pose := Pose(Zero, IdentityRotation)

  /** One thing the node sends: a transform to the static or to the dynamic
      transform broadcaster, or an estimate to the pose or twist publisher. */
  datatype Output =
    | StaticTf(tf: TransformStamped)
    | DynamicTf(tf: TransformStamped)
    | PoseOut(pose: PoseStamped)
    | TwistOut(twist: TwistStamped)

  /** The fixed offset the transform helper builds for a parent/child pair with
      zero translation and zero roll, pitch and yaw. */
  function ZeroOffset(parent: string, child: string): (t: TransformStamped)
    ensures t.header.frameId == parent && t.childFrameId == child
    ensures t.transform.translation == Zero && NormSquared(t.transform.rotation) == 1.0
  {
    TransformStamped(Header(0, parent), child, IdentityTransform)
  }

  /** Links a dynamic transform into the chain at setup: names its parent and
      child and sets the scalar part of its rotation to 1; its translation and
      the vector part of its rotation keep whatever they held. */
  function InitLink(tf: TransformStamped, parent: string, child: string): (r: TransformStamped)
    ensures r.header.frameId == parent && r.childFrameId == child
    ensures r.header.stamp == tf.header.stamp && r.transform.translation == tf.transform.translation
    ensures r.transform.rotation == tf.transform.rotation.(w := 1.0)
  {
    tf.(header := tf.header.(frameId := parent), childFrameId := child,
        transform := tf.transform.(rotation := tf.transform.rotation.(w := 1.0)))
  }

  /** Setup turns a link into the identity exactly when its translation and
      the vector part of its rotation are still zero, whatever its `w`. */
  lemma InitLinkIsIdentityIff(tf: TransformStamped, parent: string, child: string)
    ensures InitLink(tf, parent, child).transform == IdentityTransform
        <==> tf.transform.translation == Zero
             && tf.transform.rotation.x == 0.0 && tf.transform.rotation.y == 0.0
             && tf.transform.rotation.z == 0.0
  {
  }

  /** A link that is still a fresh message becomes the identity at setup. */
  lemma InitLinkOfDefault(parent: string, child: string)
    ensures InitLink(DefaultTransformStamped, parent, child).transform == IdentityTransform
  {
  }

  function Stamped(tf: TransformStamped, t: Time): TransformStamped {
    tf.(header := tf.header.(stamp := t))
  }

  /** Every transform of the list stamped with `t`. */
  function Restamp(ts: seq<TransformStamped>, t: Time): (r: seq<TransformStamped>)
    ensures |r| == |ts|
  {
    if ts == [] then [] else [Stamped(ts[0], t)] + Restamp(ts[1..], t)
  }

  /** Restamping changes each transform's stamp and nothing else, in place. */
  lemma {:induction false} RestampPointwise(ts: seq<TransformStamped>, t: Time)
    ensures forall k :: 0 <= k < |ts| ==> Restamp(ts, t)[k] == Stamped(ts[k], t)
  {
    if ts != [] {
      RestampPointwise(ts[1..], t);
    }
  }

  /** Each transform of the list sent to the static broadcaster. */
  function StaticOutputs(ts: seq<TransformStamped>): (r: seq<Output>)
    ensures |r| == |ts|
  {
    if ts == [] then [] else [StaticTf(ts[0])] + StaticOutputs(ts[1..])
  }

  lemma {:induction false} StaticOutputsPointwise(ts: seq<TransformStamped>)
    ensures forall k :: 0 <= k < |ts| ==> StaticOutputs(ts)[k] == StaticTf(ts[k])
  {
    if ts != [] {
      StaticOutputsPointwise(ts[1..]);
    }
  }

  lemma {:induction false} StaticOutputsSnoc(ts: seq<TransformStamped>, x: TransformStamped)
    ensures StaticOutputs(ts + [x]) == StaticOutputs(ts) + [StaticTf(x)]
  {
    if ts != [] {
      assert (ts + [x])[1..] == ts[1..] + [x];
      StaticOutputsSnoc(ts[1..], x);
    }
  }

  /** What one publication of the transform chain sends: every static
      transform, then map->odom, then odom->body, all stamped `now`. */
  function TfBatch(statics: seq<TransformStamped>, mapToOdom: TransformStamped,
                   odomToBody: TransformStamped, now: Time): (r: seq<Output>)
    ensures |r| == |statics| + 2
    ensures r[|statics|] == DynamicTf(Stamped(mapToOdom, now))
    ensures r[|statics| + 1] == DynamicTf(Stamped(odomToBody, now))
  {
    StaticOutputs(Restamp(statics, now)) + [DynamicTf(Stamped(mapToOdom, now)), DynamicTf(Stamped(odomToBody, now))]
  }

  /** The batch opens with every static transform, in order, restamped `now`
      and sent to the static broadcaster. */
  lemma {:induction false} TfBatchStatics(statics: seq<TransformStamped>, mapToOdom: TransformStamped,
                                          odomToBody: TransformStamped, now: Time)
    ensures var r := TfBatch(statics, mapToOdom, odomToBody, now);
            forall k :: 0 <= k < |statics| ==> r[k] == StaticTf(Stamped(statics[k], now))
  {
    RestampPointwise(statics, now);
    StaticOutputsPointwise(Restamp(statics, now));
  }

  /** Each transform's child frame is the next one's parent frame. */
  ghost predicate Linked(ts: seq<TransformStamped>) {
    forall k :: 0 < k < |ts| ==> ts[k - 1].childFrameId == ts[k].header.frameId
  }

  /** A batch sent from a linked chain is itself a linked chain of transforms
      from the first parent to the last child, every one stamped `now`:
      listeners see one consistent snapshot of the tree per tick. */
  lemma {:induction false} TfBatchIsStampedChain(statics: seq<TransformStamped>,
                                                 mapToOdom: TransformStamped,
                                                 odomToBody: TransformStamped, now: Time)
    requires Linked(statics + [mapToOdom, odomToBody])
    ensures var r := TfBatch(statics, mapToOdom, odomToBody, now);
            (forall k :: 0 <= k < |r| ==> (r[k].StaticTf? || r[k].DynamicTf?) && r[k].tf.header.stamp == now)
            && (forall k :: 0 < k < |r| ==> r[k - 1].tf.childFrameId == r[k].tf.header.frameId)
            && r[|r| - 1].tf.childFrameId == odomToBody.childFrameId
            && (statics != [] ==> r[0].tf.header.frameId == statics[0].header.frameId)
  {
    var r := TfBatch(statics, mapToOdom, odomToBody, now);
    var chain := statics + [mapToOdom, odomToBody];
    RestampPointwise(statics, now);
    StaticOutputsPointwise(Restamp(statics, now));
    assert forall k :: 0 <= k < |r| ==> r[k].tf == Stamped(chain[k], now);
  }
}
