/** Helpers for bodies that turn instead of moving in a straight line: the angular friction
    and the adapter that lets a rotating rectangle take part in the circle/rectangle
    collision routine. */
module PhysicsExtensions {
  import opened Numerics
  import opened Vector
  import opened Types

  /** A rotating rectangle collider: a position, an angular speed and the rectangle's
      shape; `kind` is the optional `type` tag. */
  datatype AngularRect = AngularRect(
    position: Vec,
    angularSpeed: real,
    width: real,
    length: real,
    rotation: real,
    weight: real,
    kind: Option<string>)

  /** The copy made by the adapter: the collider's fields plus a linear velocity. */
  datatype AdaptedRect = AdaptedRect(
    position: Vec,
    velocity: Vec,
    angularSpeed: real,
    width: real,
    length: real,
    rotation: real,
    weight: real,
    kind: Option<string>)

  /** `applyAngularFriction`: the angular speed after a step of `elapsedTime` under the
      friction factor, `angularSpeed * pow(frictionFactor, elapsedTime)`. For a factor in
      (0, 1] and a non-negative step the speed never grows and never changes sign. */
  function AngularFriction(m: Math, angularSpeed: real, frictionFactor: real,
                           elapsedTime: real): (r: real)
    ensures PowLaw(m) && 0.0 < frictionFactor <= 1.0 && 0.0 <= elapsedTime ==>
      Abs(r) <= Abs(angularSpeed) && (angularSpeed >= 0.0 <==> r >= 0.0)
      && (angularSpeed == 0.0 <==> r == 0.0)
  {
    var p := m.pow(frictionFactor, elapsedTime);
    assert PowLaw(m) && 0.0 < frictionFactor <= 1.0 && 0.0 <= elapsedTime ==> 0.0 < p <= 1.0;
    ShrinkingFactor(angularSpeed, p);
    angularSpeed * p
  }

  lemma ShrinkingFactor(s: real, p: real)
    ensures 0.0 < p <= 1.0 ==>
      Abs(s * p) <= Abs(s) && (s >= 0.0 <==> s * p >= 0.0) && (s == 0.0 <==> s * p == 0.0)
  {
    if 0.0 < p <= 1.0 {
      if s > 0.0 {
        assert s * p <= s * 1.0;
        assert 0.0 < s * p;
      } else if s == 0.0 {
        assert s * p == 0.0;
      } else {
        assert s * 1.0 <= s * p;
        PositiveFactor(-s, p);
        assert (-s) * p == -(s * p);
      }
    }
  }

  /** The sword seen as a rotating rectangle. */
  function SwordCollider(w: Weapon): AngularRect
    requires w.Sword?
  {
    AngularRect(w.position, w.angularSpeed, w.width, w.length, w.rotation, w.weight,
                Some(WeaponType(w)))
  }

  /** `adaptAngularRectangleToPhysics`: a fresh record; for a sword its position is moved to
      the middle of the blade, and its velocity is 10 times the angular speed along the
      blade's direction. */
  function Adapt(m: Math, c: AngularRect): (a: AdaptedRect)
    ensures a.angularSpeed == c.angularSpeed && a.width == c.width && a.length == c.length
    ensures a.rotation == c.rotation && a.weight == c.weight && a.kind == c.kind
  {
    var position :=
      if c.kind == Some("sword") then
        var halfLength := c.length / 2.0;
        Xy(c.position.x + m.cos(c.rotation) * halfLength,
           c.position.y + m.sin(c.rotation) * halfLength)
      else c.position;
    AdaptedRect(position,
                Xy(m.cos(c.rotation) * c.angularSpeed * 10.0,
                   m.sin(c.rotation) * c.angularSpeed * 10.0),
                c.angularSpeed, c.width, c.length, c.rotation, c.weight, c.kind)
  }

  /** For a sword the adapted position is the blade midpoint, half the length along the
      rotation; any other collider keeps its position. */
  lemma AdaptPosition(m: Math, c: AngularRect)
    requires SqrtLaw(m) && TrigLaw(m)
    ensures c.kind == Some("sword") ==>
      Adapt(m, c).position == TipAt(m, c.position, c.rotation, c.length / 2.0)
      && Magnitude(m, Subtract(Adapt(m, c).position, Xy(c.position.x, c.position.y)))
         == Abs(c.length) / 2.0
    ensures c.kind != Some("sword") ==> Adapt(m, c).position == c.position
  {
    if c.kind == Some("sword") {
      var d := Subtract(Adapt(m, c).position, Xy(c.position.x, c.position.y));
      var h := c.length / 2.0;
      assert d == Rotate(m, Xy(h, 0.0), c.rotation);
      RotatePreservesMagnitude(m, Xy(h, 0.0), c.rotation);
      AxisLength(m, h);
    }
  }

  /** The synthetic velocity has length 10·|angularSpeed|. */
  lemma AdaptSpeed(m: Math, c: AngularRect)
    requires SqrtLaw(m) && TrigLaw(m)
    ensures Magnitude(m, Adapt(m, c).velocity) == 10.0 * Abs(c.angularSpeed)
  {
    var s := c.angularSpeed * 10.0;
    assert Adapt(m, c).velocity == Rotate(m, Xy(s, 0.0), c.rotation);
    RotatePreservesMagnitude(m, Xy(s, 0.0), c.rotation);
    AxisLength(m, s);
  }
}
