# BasicStateEstimator, modelled in Dafny

The model covers the basic state estimator of Aerostack2. This node keeps a
transform tree for a drone:

- `earth` (the global frame) -> `map`
- `map` -> `odom`
- `odom` -> the drone's body frame

It latches odometry and ground-truth messages. On every tick it:

1. computes a map->body estimate from whichever modes are enabled: odometry
   only, ground truth, or sensor fusion;
2. writes the map->odom "drift" that reconciles that estimate with odometry;
3. sends the whole tree with one time stamp;
4. publishes the drone's pose and twist in the global frame.

Layout:

- `Geometry.dfy` holds vectors, quaternions with the Hamilton product,
  transforms, poses and twists. It also holds the drift computation and its
  algebra.
- `Messages.dfy` holds the stamped message records and the zero offset that
  `getStartingPose` installs. It also holds the restamping of transforms and
  what one publication of the tree sends, in order.
- `Localization.dfy` holds the decisions that do not touch the node's state:
  - mode resolution;
  - body-frame naming;
  - which source a tick's estimate comes from;
  - the link values a tick produces;
  - the global pose and twist.
- `Estimator.dfy` holds the class `BasicStateEstimator`. It has the node's
  fields, and one method per modelled member function of the node:
  - activation (`setupTfTree`, `getStartingPose`);
  - the three subscription callbacks;
  - the tick (`run`) and the steps it calls.

  Everything the node sends goes to the `outbox` field in sending order:
  - static transforms, dynamic transforms, pose and twist messages;
  - each labelled with the broadcaster or publisher that sends it.

Everything outside the node itself is a parameter of the method that uses it:

- The clock becomes the time stamps given to `Run`, `PublishTfs` and
  `PublishStateEstimation`.
- The frame-naming helper `generateTfName` becomes the function parameter
  `tfName`.
- The transform-buffer lookup becomes an `Option<Transform>`, which is `None`
  when the lookup throws.
- The FLU->ENU velocity conversion becomes the function parameter `toEnu`.
- The parameter server becomes a `Config` value.

Behaviour of the C++ worth noting, which the model keeps:

- All three callbacks open the readiness gate, not only the odometry one.
- Sensor-fusion mode is accepted, and in it a tick does nothing
  mode-specific. With sensor fusion alone, the estimate is the fresh
  identity transform, so the drift step writes `(-t_odom_body,
  conj(q_odom_body))` into map->odom (`SensorFusionTickDrift`), and the
  global twist keeps its previous value.
- Several mode flags may be set at once. When they are, the blocks of
  `calculateLocalization` and `getGlobalRefState` overwrite each other in
  source order, so ground truth wins over odometry.
- Activation sets only the scalar part `w` of each dynamic link's rotation
  to 1. The links become the identity only while their translation and
  the vector part of their rotation are still zero, as on a freshly
  constructed node (`InitLinkIsIdentityIff`).
- The drift rotation is `q_map_body * conj(q_odom_body)`, as `tf2::inverse`
  computes it. Composed back by the Hamilton product it gives the estimate
  exactly only for a unit `q_odom_body`, given a non-zero `q_map_body`
  (`DriftRoundTripUnit`); in general the result is off by the factor
  `|q_odom_body|^2` (`DriftRoundTrip`).
- The drift translation is a plain component-wise difference that ignores the
  drift rotation. The transform tree chains map->odom and odom->body rigidly
  (`Compose`). The chain reproduces the estimate when the drift rotation is
  the identity (`DriftChainsRigidlyWhenAligned`), and also when odom->body
  sits at the origin under a unit rotation (`DriftChainExactAtOrigin`), but
  not in general. Against an unrotated odom->body link with translation `t`
  it misses by `Rotate(q_map_body, t) - t` (`DriftChainError`), two metres
  in `DriftChainMissesWhenRotated`. In odometry-only and ground-truth modes
  the drift rotation is the identity for a unit estimate rotation, so the
  chain is exact (`TickChainComposesExactly`).

## Model

| member | source | states |
|---|---|---|
| `Estimator.BasicStateEstimator.constructor` | include/basic_state_estimator/basic_state_estimator.hpp:57-75 | a new node holds default messages (identity rotations, empty headers), no mode, an empty offset list, a closed gate and an empty outbox |
| `Estimator.BasicStateEstimator.SetupTfTree` | src/basic_state_estimator.cpp:91-159 | the modes become `ResolveModes` of the parameters, the global frame is `earth`, map and odom frames come from the naming helper; it succeeds iff the body frame can be named; on success the offset list is the single zero earth->map offset, both links are renamed into the chain with `w = 1`, the gate is closed and the installed-chain invariant `Activated` holds; on the empty-namespace failure the offset list is left cleared and the links untouched |
| `Estimator.BasicStateEstimator.GetStartingPose` | src/basic_state_estimator.cpp:161-168 | appends exactly one zero offset from the given global frame to the given map frame |
| `Estimator.BasicStateEstimator.OdomCallback` | src/basic_state_estimator.cpp:313-330 | odom->body takes the odometry pose (header and child kept), the latched twist takes the odometry twist relabelled to the odom frame, the gate opens, and an installed chain stays installed |
| `Estimator.BasicStateEstimator.GtPoseCallback` | src/basic_state_estimator.cpp:332-336 | the ground-truth pose is latched whole and the gate opens |
| `Estimator.BasicStateEstimator.GtTwistCallback` | src/basic_state_estimator.cpp:338-343 | the ground-truth twist takes the message's frame label and twist but keeps its old stamp; the gate opens |
| `Estimator.BasicStateEstimator.CalculateLocalization` | src/basic_state_estimator.cpp:191-214 | returns the estimate `Localize` picks for the current modes; only ground-truth mode rewrites odom->body (with the estimate); the installed chain is kept |
| `Estimator.BasicStateEstimator.UpdateOdomTfDrift` | src/basic_state_estimator.cpp:170-189 | map->odom's transform becomes `DriftBetween(odomToBody, mapToBody)`, its header and child kept; its translation plus the odom translation gives the estimate's translation |
| `Estimator.BasicStateEstimator.PublishTfs` | src/basic_state_estimator.cpp:268-280 | every offset is restamped in place, both links are stamped, and the outbox grows by exactly `TfBatch` of the pre-call tree: the offsets in order, then map->odom, then odom->body, all with one stamp (proved with loop invariants) |
| `Estimator.BasicStateEstimator.GetGlobalRefState` | src/basic_state_estimator.cpp:216-264 | the global pose follows a successful lookup and is kept on failure; the global twist is chosen by `GlobalRefTwist` from the refreshed orientation |
| `Estimator.BasicStateEstimator.PoseStampedMsg` | src/basic_state_estimator.cpp:289-298 | the pose message carries the given stamp, the global frame and exactly the global pose |
| `Estimator.BasicStateEstimator.TwistStampedMsg` | src/basic_state_estimator.cpp:300-309 | the twist message carries the given stamp, the global twist's own frame label and exactly its twist |
| `Estimator.BasicStateEstimator.PublishStateEstimation` | src/basic_state_estimator.cpp:282-287 | exactly two messages are sent, the pose then the twist, both with the one given stamp |
| `Estimator.BasicStateEstimator.Run` | src/basic_state_estimator.cpp:47-60 | with the gate closed nothing changes and nothing is sent; with it open the offsets are restamped, odom->body becomes `LocalizedOdomLink`, map->odom becomes `TickMapLink` (both stamped), the global state is refreshed, and the outbox grows by the tree batch then the pose and the twist |
| `Geometry.Sub` | src/basic_state_estimator.cpp:173-175 | component-wise difference: adding back the subtrahend restores the minuend |
| `Geometry.DriftBetween` | src/basic_state_estimator.cpp:170-189 | the drift's translation added to odom->body's translation gives map->body's translation |
| `Geometry.MulAssociative` | src/basic_state_estimator.cpp:182-183 | the Hamilton product used for the drift rotation is associative |
| `Geometry.ConjugateMul` | src/basic_state_estimator.cpp:182-183 | `conj(q) * q` is the scalar quaternion `|q|^2` |
| `Geometry.MulConjugate` | src/basic_state_estimator.cpp:182-183 | `q * conj(q)` is the scalar quaternion `|q|^2` |
| `Geometry.MulScalar` | src/basic_state_estimator.cpp:182-183 | multiplying by a scalar quaternion scales every component |
| `Geometry.DriftRotationRoundTrip` | src/basic_state_estimator.cpp:177-188 | the drift rotation composed back onto `q_odom_body` gives `q_map_body` scaled by `|q_odom_body|^2` |
| `Geometry.DriftRoundTrip` | src/basic_state_estimator.cpp:170-189 | adding the drift translation back component-wise to odom->body's gives map->body's exactly; multiplying the drift rotation onto odom->body's gives map->body's up to `|q_odom_body|^2` |
| `Geometry.DriftRoundTripUnit` | src/basic_state_estimator.cpp:170-189 | for a unit odom->body rotation, the drift added back component-wise in translation and multiplied back in rotation gives map->body exactly |
| `Geometry.Compose` | src/basic_state_estimator.cpp:220-221 | the rigid chaining the transform-buffer lookup applies along the tree; chaining after the identity transform changes nothing |
| `Geometry.RotateIsSandwich` | src/basic_state_estimator.cpp:220-221 | the written-out rotation of a vector equals the vector part of the Hamilton sandwich `q * (v, 0) * conj(q)`, for every quaternion |
| `Geometry.ComposeUnrotated` | src/basic_state_estimator.cpp:220-221 | a link with identity rotation only shifts the next link, so the rigid chain gives the target when translations add up and rotations multiply to it |
| `Geometry.DriftChainsRigidlyWhenAligned` | src/basic_state_estimator.cpp:170-189 | when the drift rotation is the identity, the rigid chain of the drift and odom->body has map->body's translation, and is map->body itself for a unit odom->body rotation |
| `Geometry.DriftChainExactAtOrigin` | src/basic_state_estimator.cpp:170-189 | with odom->body at the origin under a unit rotation, the rigid chain of the drift and odom->body is exactly map->body, whatever the drift rotation |
| `Geometry.DriftOfUnrotated` | src/basic_state_estimator.cpp:177-188 | against an unrotated odom->body link the drift rotation is map->body's own rotation |
| `Geometry.DriftChainError` | src/basic_state_estimator.cpp:170-189 | against an unrotated odom->body link, the rigid chain misses map->body's translation by exactly how far map->body's rotation turns odom->body's translation |
| `Geometry.RotateHalfTurn` | src/basic_state_estimator.cpp:220-221 | a half turn about z sends the x axis to minus x |
| `Geometry.DriftChainMissesWhenRotated` | src/basic_state_estimator.cpp:170-189 | with a half-turn drift rotation and odom->body one metre along x, the rigid chain puts the body at x = -2 instead of at map->body's origin |
| `Geometry.DriftOfSelf` | src/basic_state_estimator.cpp:170-189 | the drift of a transform against itself is zero translation and the scalar rotation `|q|^2`, which is the identity for unit `q` |
| `Localization.ResolveModes` | src/basic_state_estimator.cpp:93-119 | afterwards at least one mode is on; ground truth and sensor fusion are kept as given; odometry-only mode is set iff it was given or no flag was given |
| `Localization.DeclaredDefaultsResolveToOdomOnly` | src/basic_state_estimator.cpp:39-45 | with every parameter at its declared value the node runs in odometry-only mode |
| `Localization.BodyFrameName` | src/basic_state_estimator.cpp:127-135 | a given base frame is named by the helper; with none, the name is the namespace minus its first character, and naming fails iff the namespace is empty |
| `Localization.Localize` | src/basic_state_estimator.cpp:191-214 | ground truth wins, else odometry-only gives the odom->body transform, else the estimate is the fresh identity transform |
| `Localization.LocalizeIsOneSource` | src/basic_state_estimator.cpp:191-214 | the estimate is one source's value taken whole, never a blend, and the sensor-fusion flag never changes it |
| `Localization.LocalizedOdomLink` | src/basic_state_estimator.cpp:198-208 | odom->body after localization equals the estimate in ground-truth mode and is unchanged otherwise |
| `Localization.TickMapLink` | src/basic_state_estimator.cpp:54-56 | the tick keeps map->odom's header and child, and its translation plus the localized odom->body translation gives the estimate's translation |
| `Localization.TickKeepsChain` | src/basic_state_estimator.cpp:47-60 | a tick on an installed chain leaves it installed: same frames, one zero earth->map offset, links still named parent to child |
| `Localization.TickSendsStampedChain` | src/basic_state_estimator.cpp:268-280 | on an installed chain a tick sends three transforms, linked child-to-parent from `earth` to the body frame, all with the tick's stamp |
| `Localization.SensorFusionTickDrift` | src/basic_state_estimator.cpp:54-56 | with sensor fusion alone, map->odom becomes the negated odom->body translation and the conjugate of its rotation |
| `Localization.TickDriftIsTrivial` | src/basic_state_estimator.cpp:54-56 | in odometry-only or ground-truth mode the drift has zero translation and the scalar rotation `|q|^2` of the estimate |
| `Localization.TickChainComposesExactly` | src/basic_state_estimator.cpp:54-56 | in odometry-only or ground-truth mode with a unit estimate rotation, the rigid chain of the new map->odom and odom->body links is exactly the estimate |
| `Localization.GlobalRefPose` | src/basic_state_estimator.cpp:218-234 | a successful lookup becomes the global pose losslessly; a failed one keeps the previous pose |
| `Localization.GlobalRefTwist` | src/basic_state_estimator.cpp:236-263 | ground truth gives the latched ground-truth twist whole; otherwise odometry-only gives the odometry twist with the linear part converted to ENU, the angular part unconverted, relabelled to the global frame with the old stamp; otherwise the previous twist is kept |
| `Messages.ZeroOffset` | src/basic_state_estimator.cpp:161-168 | the installed offset joins the given parent to the given child, with zero translation and a unit rotation |
| `Messages.InitLink` | src/basic_state_estimator.cpp:139-147 | a link gets its parent and child frames and `w = 1`; its stamp, translation and the vector part of its rotation are kept |
| `Messages.InitLinkIsIdentityIff` | src/basic_state_estimator.cpp:139-147 | setup makes a link the identity exactly when its translation and the vector part of its rotation are zero, whatever its `w` |
| `Messages.InitLinkOfDefault` | src/basic_state_estimator.cpp:139-147 | linking a freshly constructed transform yields the identity transform |
| `Messages.Restamp` | src/basic_state_estimator.cpp:271-275 | restamping keeps the number of transforms |
| `Messages.RestampPointwise` | src/basic_state_estimator.cpp:271-275 | restamping changes each transform's stamp and nothing else, position by position |
| `Messages.StaticOutputs` | src/basic_state_estimator.cpp:271-275 | one static send per transform |
| `Messages.StaticOutputsPointwise` | src/basic_state_estimator.cpp:271-275 | the k-th static send is the k-th transform |
| `Messages.StaticOutputsSnoc` | src/basic_state_estimator.cpp:271-275 | sending one more transform appends exactly one static send |
| `Messages.TfBatch` | src/basic_state_estimator.cpp:268-280 | a publication is the offsets then map->odom then odom->body, each stamped with the one time |
| `Messages.TfBatchStatics` | src/basic_state_estimator.cpp:270-275 | a publication opens with every offset, in order, restamped and sent to the static broadcaster |
| `Messages.TfBatchIsStampedChain` | src/basic_state_estimator.cpp:268-280 | a batch sent from a linked chain is a linked chain from the first parent to the last child, every transform carrying the same stamp |

## Left out

- ROS plumbing is not modelled: publishers, subscriptions, broadcasters,
  `setupNode`, and the node's `main` and launch file. Sending is modelled as
  appending to `outbox`.
- Of the lifecycle, only activation is modelled (`SetupTfTree`).
  `on_configure`, `on_deactivate` with `cleanupNode` (an empty body) and
  `on_shutdown` do nothing to the modelled state.
- Callbacks and timer ticks run one at a time, each as one atomic method.
  The executor's concurrency is not modelled.
- Floating point is modelled as real arithmetic. The rounding of `double`
  arithmetic is not captured.
- `generateTfName`, `lookupTransform` and `convertFLUtoENU` are not part of
  this model. They become the parameters `tfName`, `lookup` and `toEnu`,
  about which nothing is assumed.
- `Messages.ZeroOffset`: `getTransformation` (called at
  src/basic_state_estimator.cpp:167) is not part of this model. Its result
  is assumed to be stamp 0, zero translation and the identity rotation for
  zero roll, pitch and yaw. `ChainInstalled` relies on that identity offset.
- `Geometry.DriftBetween`: the subtraction at
  src/basic_state_estimator.cpp:173-175 ignores the drift rotation. The
  rigid chain map->odom, odom->body is exact when that rotation is the
  identity (`DriftChainsRigidlyWhenAligned`), and when odom->body is at the
  origin under a unit rotation (`DriftChainExactAtOrigin`), but not in
  general. Against an unrotated odom->body link with translation `t` it
  misses by `Rotate(q_map_body, t) - t` (`DriftChainError`). It misses by
  two metres in `DriftChainMissesWhenRotated`. `TickChainComposesExactly`
  shows that the chain is exact for unit rotations in odometry-only and
  ground-truth mode. The model states nothing stronger.
- The clock becomes explicit time stamps, one per call of `get_clock()->now()`.
- The log messages (`RCLCPP_INFO`, `RCLCPP_WARN`, `RCLCPP_ERROR`) are left out.
- The out-of-range exception of `ns.substr(1)` on an empty namespace is
  modelled as `SetupTfTree` returning `false` with the updates made before
  the throw. What the lifecycle does with the exception afterwards is not
  modelled.
- The flags and `start_run_` are left uninitialised by the C++ constructor.
  The model's constructor sets them to `false`.
- The sensor-fusion blocks are empty in the source and are empty here.
- `Estimator.BasicStateEstimator.Run`: its contract does not itself repeat
  that the installed chain survives a tick. That fact is the lemma
  `TickKeepsChain`, applied to the state `Run`'s contract describes. Also,
  zero drift translation in odometry-only and ground-truth modes is the
  lemma `TickDriftIsTrivial`, applied to `Run`'s `TickMapLink`.
- `Estimator.BasicStateEstimator.PublishTfs`: its contract does not repeat
  `Activated`; the new state it states determines it through `TickKeepsChain`.
