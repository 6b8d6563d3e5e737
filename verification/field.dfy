/** The field boundary of BoidsManager.CheckFieldPosition: a teleport wrap, axis by
    axis. x and y range over [-size, size], z over [0, size.z]; a coordinate that
    leaves its range re-enters half a unit inside the opposite boundary. */
module Field {
  import opened Vectors

  /** How far inside the opposite boundary a wrapped coordinate re-enters. */
  const Offset: real := 0.5

  /** One axis of the wrap over the range [lo, hi]. */
  function WrapAxis(v: real, lo: real, hi: real): real {
    if v < lo then hi - Offset
    else if v > hi then lo + Offset
    else v
  }

  /** p lies inside the field whose extents are size. */
  predicate InField(size: Vec3, p: Vec3) {
    -size.x <= p.x <= size.x && -size.y <= p.y <= size.y && 0.0 <= p.z <= size.z
  }

  /** The field is wide enough for the re-entry points to lie inside it. */
  predicate WideEnough(size: Vec3) {
    size.x >= 0.25 && size.y >= 0.25 && size.z >= 0.5
  }

  function CheckFieldPosition(size: Vec3, p: Vec3): (r: Vec3)
    ensures InField(size, p) ==> r == p
    ensures WideEnough(size) ==> InField(size, r)
  {
    Vec3(WrapAxis(p.x, -size.x, size.x),
         WrapAxis(p.y, -size.y, size.y),
         WrapAxis(p.z, 0.0, size.z))
  }

  /** The values each axis takes: below its range it re-enters at the upper end
      less the offset, above its range at the lower end plus the offset, and a
      coordinate inside its range is kept. */
  lemma WrapValues(size: Vec3, p: Vec3)
    ensures var r := CheckFieldPosition(size, p);
      && (p.x < -size.x ==> r.x == size.x - 0.5)
      && (p.x > size.x && !(p.x < -size.x) ==> r.x == -size.x + 0.5)
      && (-size.x <= p.x <= size.x ==> r.x == p.x)
      && (p.y < -size.y ==> r.y == size.y - 0.5)
      && (p.y > size.y && !(p.y < -size.y) ==> r.y == -size.y + 0.5)
      && (-size.y <= p.y <= size.y ==> r.y == p.y)
      && (p.z < 0.0 ==> r.z == size.z - 0.5)
      && (p.z > size.z && !(p.z < 0.0) ==> r.z == 0.5)
      && (0.0 <= p.z <= size.z ==> r.z == p.z)
  {
  }

  /** Each axis of the result depends on that axis of the input only. */
  lemma WrapAxesIndependent(size: Vec3, p: Vec3, q: Vec3)
    ensures p.x == q.x ==> CheckFieldPosition(size, p).x == CheckFieldPosition(size, q).x
    ensures p.y == q.y ==> CheckFieldPosition(size, p).y == CheckFieldPosition(size, q).y
    ensures p.z == q.z ==> CheckFieldPosition(size, p).z == CheckFieldPosition(size, q).z
  {
  }

  /** Wrapping twice is wrapping once, whatever the extents of the field. */
  lemma WrapIdempotent(size: Vec3, p: Vec3)
    ensures CheckFieldPosition(size, CheckFieldPosition(size, p)) == CheckFieldPosition(size, p)
  {
  }
}
