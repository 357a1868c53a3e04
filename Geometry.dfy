/** Rigid-body geometry used by the estimator: 3-vectors, quaternions in
    (x, y, z, w) order with the Hamilton product, transforms, poses and twists.
    Coordinates are reals; the floating-point rounding of the C++ node is not
    modelled. */
module Geometry {

  datatype Vector3 = Vector3(x: real, y: real, z: real)

  /** A rotation quaternion; the scalar part is `w`. */
  datatype Quaternion = Quaternion(x: real, y: real, z: real, w: real)

  /** A rigid transform "child relative to parent". */
  datatype Transform = Transform(translation: Vector3, rotation: Quaternion)

  datatype Pose = Pose(position: Vector3, orientation: Quaternion)

  datatype Twist = Twist(linear: Vector3, angular: Vector3)

  const Zero: Vector3 := Vector3(0.0, 0.0, 0.0)

  /** The identity rotation; also the value a freshly constructed quaternion
      message holds (w defaults to 1). */
  const IdentityRotation: Quaternion := Quaternion(0.0, 0.0, 0.0, 1.0)

  /** The transform a freshly constructed transform message holds. */
  const IdentityTransform: Transform := Transform(Zero, IdentityRotation)

  function Add(a: Vector3, b: Vector3): Vector3 {
    Vector3(a.x + b.x, a.y + b.y, a.z + b.z)
  }

  /** Component-wise difference, as the drift step computes it. */
  function Sub(a: Vector3, b: Vector3): (r: Vector3)
    ensures Add(r, b) == a
  {
    Vector3(a.x - b.x, a.y - b.y, a.z - b.z)
  }

  /** The inverse the transform library gives a quaternion: its conjugate. */
  function Conjugate(q: Quaternion): Quaternion
  {
    Quaternion(-q.x, -q.y, -q.z, q.w)
  }

  function NormSquared(q: Quaternion): real {
    q.x * q.x + q.y * q.y + q.z * q.z + q.w * q.w
  }

  function Scale(q: Quaternion, k: real): Quaternion {
    Quaternion(k * q.x, k * q.y, k * q.z, k * q.w)
  }

  /** Hamilton product p * q. */
  function Mul(p: Quaternion, q: Quaternion): Quaternion {
    Quaternion(
      p.w * q.x + p.x * q.w + p.y * q.z - p.z * q.y,
      p.w * q.y + p.y * q.w + p.z * q.x - p.x * q.z,
      p.w * q.z + p.z * q.w + p.x * q.y - p.y * q.x,
      p.w * q.w - p.x * q.x - p.y * q.y - p.z * q.z)
  }

  function PoseToTransform(p: Pose): Transform {
    Transform(p.position, p.orientation)
  }

  function TransformToPose(t: Transform): Pose {
    Pose(t.translation, t.rotation)
  }

  /** The map->odom correction that reconciles a trusted map->body estimate
      with the integrated odom->body transform: translations are subtracted
      component by component (no rotation of the offset), rotations are
      combined as q_map_body * conj(q_odom_body). */
  function DriftBetween(odomToBody: Transform, mapToBody: Transform): (drift: Transform)
    ensures Add(drift.translation, odomToBody.translation) == mapToBody.translation
  {
    Transform(Sub(mapToBody.translation, odomToBody.translation),
              Mul(mapToBody.rotation, Conjugate(odomToBody.rotation)))
  }

  // ---------------------------------------------------------------------------
  // Quaternion algebra

  // Each component of (p * q) * r and of p * (q * r), expanded into the same
  // sum of sixteen monomials; Z3 manages one component at a time.

  lemma LeftExpandX(p: Quaternion, q: Quaternion, r: Quaternion)
    ensures Mul(Mul(p, q), r).x == p.w * q.w * r.x + p.w * q.x * r.w + p.w * q.y * r.z - p.w * q.z * r.y + p.x * q.w * r.w - p.x * q.x * r.x - p.x * q.y * r.y - p.x * q.z * r.z + p.y * q.w * r.z + p.y * q.x * r.y - p.y * q.y * r.x + p.y * q.z * r.w - p.z * q.w * r.y + p.z * q.x * r.z - p.z * q.y * r.w - p.z * q.z * r.x
  {
  }

  lemma RightExpandX(p: Quaternion, q: Quaternion, r: Quaternion)
    ensures Mul(p, Mul(q, r)).x == p.w * q.w * r.x + p.w * q.x * r.w + p.w * q.y * r.z - p.w * q.z * r.y + p.x * q.w * r.w - p.x * q.x * r.x - p.x * q.y * r.y - p.x * q.z * r.z + p.y * q.w * r.z + p.y * q.x * r.y - p.y * q.y * r.x + p.y * q.z * r.w - p.z * q.w * r.y + p.z * q.x * r.z - p.z * q.y * r.w - p.z * q.z * r.x
  {
  }

  lemma LeftExpandY(p: Quaternion, q: Quaternion, r: Quaternion)
    ensures Mul(Mul(p, q), r).y == p.w * q.w * r.y - p.w * q.x * r.z + p.w * q.y * r.w + p.w * q.z * r.x - p.x * q.w * r.z - p.x * q.x * r.y + p.x * q.y * r.x - p.x * q.z * r.w + p.y * q.w * r.w - p.y * q.x * r.x - p.y * q.y * r.y - p.y * q.z * r.z + p.z * q.w * r.x + p.z * q.x * r.w + p.z * q.y * r.z - p.z * q.z * r.y
  {
  }

  lemma RightExpandY(p: Quaternion, q: Quaternion, r: Quaternion)
    ensures Mul(p, Mul(q, r)).y == p.w * q.w * r.y - p.w * q.x * r.z + p.w * q.y * r.w + p.w * q.z * r.x - p.x * q.w * r.z - p.x * q.x * r.y + p.x * q.y * r.x - p.x * q.z * r.w + p.y * q.w * r.w - p.y * q.x * r.x - p.y * q.y * r.y - p.y * q.z * r.z + p.z * q.w * r.x + p.z * q.x * r.w + p.z * q.y * r.z - p.z * q.z * r.y
  {
  }

  lemma LeftExpandZ(p: Quaternion, q: Quaternion, r: Quaternion)
    ensures Mul(Mul(p, q), r).z == p.w * q.w * r.z + p.w * q.x * r.y - p.w * q.y * r.x + p.w * q.z * r.w + p.x * q.w * r.y - p.x * q.x * r.z + p.x * q.y * r.w + p.x * q.z * r.x - p.y * q.w * r.x - p.y * q.x * r.w - p.y * q.y * r.z + p.y * q.z * r.y + p.z * q.w * r.w - p.z * q.x * r.x - p.z * q.y * r.y - p.z * q.z * r.z
  {
  }

  lemma RightExpandZ(p: Quaternion, q: Quaternion, r: Quaternion)
    ensures Mul(p, Mul(q, r)).z == p.w * q.w * r.z + p.w * q.x * r.y - p.w * q.y * r.x + p.w * q.z * r.w + p.x * q.w * r.y - p.x * q.x * r.z + p.x * q.y * r.w + p.x * q.z * r.x - p.y * q.w * r.x - p.y * q.x * r.w - p.y * q.y * r.z + p.y * q.z * r.y + p.z * q.w * r.w - p.z * q.x * r.x - p.z * q.y * r.y - p.z * q.z * r.z
  {
  }

  lemma LeftExpandW(p: Quaternion, q: Quaternion, r: Quaternion)
    ensures Mul(Mul(p, q), r).w == p.w * q.w * r.w - p.w * q.x * r.x - p.w * q.y * r.y - p.w * q.z * r.z - p.x * q.w * r.x - p.x * q.x * r.w - p.x * q.y * r.z + p.x * q.z * r.y - p.y * q.w * r.y + p.y * q.x * r.z - p.y * q.y * r.w - p.y * q.z * r.x - p.z * q.w * r.z - p.z * q.x * r.y + p.z * q.y * r.x - p.z * q.z * r.w
  {
  }

  lemma RightExpandW(p: Quaternion, q: Quaternion, r: Quaternion)
    ensures Mul(p, Mul(q, r)).w == p.w * q.w * r.w - p.w * q.x * r.x - p.w * q.y * r.y - p.w * q.z * r.z - p.x * q.w * r.x - p.x * q.x * r.w - p.x * q.y * r.z + p.x * q.z * r.y - p.y * q.w * r.y + p.y * q.x * r.z - p.y * q.y * r.w - p.y * q.z * r.x - p.z * q.w * r.z - p.z * q.x * r.y + p.z * q.y * r.x - p.z * q.z * r.w
  {
  }

  lemma MulAssociative(p: Quaternion, q: Quaternion, r: Quaternion)
    ensures Mul(Mul(p, q), r) == Mul(p, Mul(q, r))
  {
    LeftExpandX(p, q, r); RightExpandX(p, q, r);
    LeftExpandY(p, q, r); RightExpandY(p, q, r);
    LeftExpandZ(p, q, r); RightExpandZ(p, q, r);
    LeftExpandW(p, q, r); RightExpandW(p, q, r);
  }

  /** conj(q) * q is the scalar |q|^2; it is the identity only for unit q. */
  lemma ConjugateMul(q: Quaternion)
    ensures Mul(Conjugate(q), q) == Quaternion(0.0, 0.0, 0.0, NormSquared(q))
  {
  }

  lemma MulConjugate(q: Quaternion)
    ensures Mul(q, Conjugate(q)) == Quaternion(0.0, 0.0, 0.0, NormSquared(q))
  {
  }

  lemma MulScalar(p: Quaternion, k: real)
    ensures Mul(p, Quaternion(0.0, 0.0, 0.0, k)) == Scale(p, k)
  {
  }

  /** Composing the drift rotation back onto q_odom_body gives q_map_body,
      scaled by |q_odom_body|^2. */
  lemma {:induction false} DriftRotationRoundTrip(mapRot: Quaternion, odomRot: Quaternion)
    ensures Mul(Mul(mapRot, Conjugate(odomRot)), odomRot)
         == Scale(mapRot, NormSquared(odomRot))
  {
    MulAssociative(mapRot, Conjugate(odomRot), odomRot);
    ConjugateMul(odomRot);
    MulScalar(mapRot, NormSquared(odomRot));
  }

  /** The drift composed back onto odom->body, translations added component
      by component and rotations by the Hamilton product, gives map->body:
      exactly in translation, and in rotation up to the factor |q_odom_body|^2. */
  lemma {:induction false} DriftRoundTrip(odomToBody: Transform, mapToBody: Transform)
    ensures Add(DriftBetween(odomToBody, mapToBody).translation, odomToBody.translation)
         == mapToBody.translation
    ensures Mul(DriftBetween(odomToBody, mapToBody).rotation, odomToBody.rotation)
         == Scale(mapToBody.rotation, NormSquared(odomToBody.rotation))
  {
    DriftRotationRoundTrip(mapToBody.rotation, odomToBody.rotation);
  }

  /** For a unit odom->body rotation the drift reproduces the trusted map->body
      transform exactly when composed back the same way (translation added
      component-wise, rotation by the Hamilton product). */
  lemma {:induction false} DriftRoundTripUnit(odomToBody: Transform, mapToBody: Transform)
    requires NormSquared(odomToBody.rotation) == 1.0
    ensures Add(DriftBetween(odomToBody, mapToBody).translation, odomToBody.translation)
         == mapToBody.translation
    ensures Mul(DriftBetween(odomToBody, mapToBody).rotation, odomToBody.rotation)
         == mapToBody.rotation
  {
    DriftRoundTrip(odomToBody, mapToBody);
  }

  /** The drift of a transform against itself has no translation and the
      scalar rotation |q|^2, which is the identity rotation for a unit q. */
  lemma DriftOfSelf(t: Transform)
    ensures DriftBetween(t, t) == Transform(Zero, Quaternion(0.0, 0.0, 0.0, NormSquared(t.rotation)))
    ensures NormSquared(t.rotation) == 1.0 ==> DriftBetween(t, t) == IdentityTransform
  {
    MulConjugate(t.rotation);
  }

  // ---------------------------------------------------------------------------
  // Rigid composition, as the transform tree chains map->odom with odom->body

  /** The vector v rotated by q, written out as the vector part of
      q * (v, 0) * conj(q): (w^2 - u.u) v + 2 (u.v) u + 2 w (u x v), where u
      is the vector part of q. */
  function Rotate(q: Quaternion, v: Vector3): Vector3 {
    var s := q.w * q.w - (q.x * q.x + q.y * q.y + q.z * q.z);
    var d := 2.0 * (q.x * v.x + q.y * v.y + q.z * v.z);
    Vector3(s * v.x + d * q.x + 2.0 * q.w * (q.y * v.z - q.z * v.y),
            s * v.y + d * q.y + 2.0 * q.w * (q.z * v.x - q.x * v.z),
            s * v.z + d * q.z + 2.0 * q.w * (q.x * v.y - q.y * v.x))
  }

  /** The vector part of the sandwich product q * (v, 0) * conj(q). */
  function Sandwich(q: Quaternion, v: Vector3): Vector3 {
    var r := Mul(Mul(q, Quaternion(v.x, v.y, v.z, 0.0)), Conjugate(q));
    Vector3(r.x, r.y, r.z)
  }

  lemma RotateIsSandwichX(q: Quaternion, v: Vector3)
    ensures Rotate(q, v).x == Sandwich(q, v).x
  {
  }

  lemma RotateIsSandwichY(q: Quaternion, v: Vector3)
    ensures Rotate(q, v).y == Sandwich(q, v).y
  {
  }

  lemma RotateIsSandwichZ(q: Quaternion, v: Vector3)
    ensures Rotate(q, v).z == Sandwich(q, v).z
  {
  }

  /** The written-out rotation is the Hamilton-product sandwich, for every
      quaternion, unit or not. */
  lemma {:induction false} RotateIsSandwich(q: Quaternion, v: Vector3)
    ensures Rotate(q, v) == Sandwich(q, v)
  {
    RotateIsSandwichX(q, v);
    RotateIsSandwichY(q, v);
    RotateIsSandwichZ(q, v);
  }

  /** Parent->middle `a` followed by middle->child `b`, as one rigid
      parent->child transform. */
  function Compose(a: Transform, b: Transform): (r: Transform)
    ensures a == IdentityTransform ==> r == b
  {
    Transform(Add(a.translation, Rotate(a.rotation, b.translation)), Mul(a.rotation, b.rotation))
  }

  /** A transform whose rotation is the identity only shifts what follows it,
      so chaining it before `b` gives `c` when the translations add up to
      `c`'s and the rotations compose to `c`'s. */
  lemma ComposeUnrotated(a: Transform, b: Transform, c: Transform)
    requires a.rotation == IdentityRotation
    requires Add(a.translation, b.translation) == c.translation
    ensures Compose(a, b).translation == c.translation
    ensures Mul(a.rotation, b.rotation) == c.rotation ==> Compose(a, b) == c
  {
  }

  /** The drift translation is a plain difference, so the rigid chain
      map->odom, odom->body lands on map->body's translation when the drift
      rotation is the identity, and on map->body itself when in addition the
      odom->body rotation is a unit quaternion. */
  lemma {:induction false} DriftChainsRigidlyWhenAligned(odomToBody: Transform, mapToBody: Transform)
    requires DriftBetween(odomToBody, mapToBody).rotation == IdentityRotation
    ensures Compose(DriftBetween(odomToBody, mapToBody), odomToBody).translation == mapToBody.translation
    ensures NormSquared(odomToBody.rotation) == 1.0 ==>
              Compose(DriftBetween(odomToBody, mapToBody), odomToBody) == mapToBody
  {
    if NormSquared(odomToBody.rotation) == 1.0 {
      DriftRoundTripUnit(odomToBody, mapToBody);
    }
    ComposeUnrotated(DriftBetween(odomToBody, mapToBody), odomToBody, mapToBody);
  }

  /** The half turn about z rotates the x axis onto minus x. */
  lemma RotateHalfTurn()
    ensures Rotate(Quaternion(0.0, 0.0, 1.0, 0.0), Vector3(1.0, 0.0, 0.0)) == Vector3(-1.0, 0.0, 0.0)
  {
  }

  /** Rotating the zero vector gives the zero vector. */
  lemma RotateZero(q: Quaternion)
    ensures Rotate(q, Zero) == Zero
  {
  }

  /** An identity drift rotation is not needed for an exact chain: with
      odom->body at the origin under a unit rotation, the rigid chain gives
      map->body whatever the drift rotation is. */
  lemma {:induction false} DriftChainExactAtOrigin(odomToBody: Transform, mapToBody: Transform)
    requires odomToBody.translation == Zero
    requires NormSquared(odomToBody.rotation) == 1.0
    ensures Compose(DriftBetween(odomToBody, mapToBody), odomToBody) == mapToBody
  {
    var drift := DriftBetween(odomToBody, mapToBody);
    RotateZero(drift.rotation);
    DriftRoundTripUnit(odomToBody, mapToBody);
  }

  /** Against an unrotated odom->body link the drift rotation is map->body's
      own rotation. */
  lemma DriftOfUnrotated(odomToBody: Transform, mapToBody: Transform)
    requires odomToBody.rotation == IdentityRotation
    ensures DriftBetween(odomToBody, mapToBody).rotation == mapToBody.rotation
  {
    assert Conjugate(odomToBody.rotation) == Quaternion(0.0, 0.0, 0.0, 1.0);
    MulScalar(mapToBody.rotation, 1.0);
  }

  /** Against an unrotated odom->body link the rigid chain misses map->body's
      translation by how far map->body's rotation turns odom->body's
      translation: the error vanishes only when that rotation leaves it
      fixed. */
  lemma {:induction false} DriftChainError(odomToBody: Transform, mapToBody: Transform)
    requires odomToBody.rotation == IdentityRotation
    ensures Compose(DriftBetween(odomToBody, mapToBody), odomToBody).translation
         == Add(mapToBody.translation, Sub(Rotate(mapToBody.rotation, odomToBody.translation), odomToBody.translation))
  {
    DriftOfUnrotated(odomToBody, mapToBody);
  }

  /** For instance, map->body a half turn about z at the origin and odom->body
      one metre along x unrotated: the chain puts the body two metres behind
      the origin. */
  lemma {:induction false} DriftChainMissesWhenRotated(odomToBody: Transform, mapToBody: Transform)
    requires odomToBody == Transform(Vector3(1.0, 0.0, 0.0), IdentityRotation)
    requires mapToBody == Transform(Zero, Quaternion(0.0, 0.0, 1.0, 0.0))
    ensures Compose(DriftBetween(odomToBody, mapToBody), odomToBody).translation == Vector3(-2.0, 0.0, 0.0)
  {
    DriftChainError(odomToBody, mapToBody);
    RotateHalfTurn();
  }
}
