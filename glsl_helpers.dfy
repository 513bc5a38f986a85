/**
 * The helpers of lib/glsl/helpers.ts: degree/radian conversion through the
 * factor `π/180`, and `merge`, which copies one field of a partial record into
 * a record in place, by component for vectors.
 */
module GlslHelpers {
  import opened Wrappers
  import opened Numerics

  /** `ANGLE_CONV`: radians per degree. */
  const ANGLE_CONV: real := PI / 180.0

  /** `toRad`: degrees times `π/180`. */
  function ToRad(deg: real): (rad: real)
    ensures deg == 180.0 ==> rad == PI
  {
    deg * ANGLE_CONV
  }

  /** `toDeg`: radians divided by `π/180`. */
  function ToDeg(rad: real): real {
    rad / ANGLE_CONV
  }

  /** `toDeg` undoes `toRad`. */
  lemma ToDegOfToRad(x: real)
    ensures ToDeg(ToRad(x)) == x
  {
    assert ANGLE_CONV != 0.0;
    assert (x * ANGLE_CONV) / ANGLE_CONV == x;
  }

  /** `toRad` undoes `toDeg`. */
  lemma ToRadOfToDeg(x: real)
    ensures ToRad(ToDeg(x)) == x
  {
    assert ANGLE_CONV != 0.0;
    assert (x / ANGLE_CONV) * ANGLE_CONV == x;
  }

  /** Both conversions keep the order of angles. */
  lemma ToRadMonotonic(a: real, b: real)
    ensures a <= b <==> ToRad(a) <= ToRad(b)
    ensures a < b <==> ToRad(a) < ToRad(b)
  {
    assert ANGLE_CONV > 0.0;
    if a <= b {
      assert a * ANGLE_CONV <= b * ANGLE_CONV;
    }
    if a < b {
      assert a * ANGLE_CONV < b * ANGLE_CONV;
    }
  }

  // ---------------------------------------------------------------------------
  // merge (lib/glsl/helpers.ts:35-42)
  // ---------------------------------------------------------------------------

  /** The values a record field of the camera's snapshots may hold. */
  datatype Value = Scalar(n: real) | Flag(b: bool) | Name(s: string) | Vector(x: real, y: real, z: real)

  /**
   * A record updated in place; `fields` holds its defined keys. A `Partial`
   * source record is a map that may lack keys, a key it lacks being read as
   * `undefined`.
   */
  class Record {
    var fields: map<string, Value>

    constructor(fields: map<string, Value>)
      ensures this.fields == fields
    {
      this.fields := fields;
    }
  }

  /** The value `merge` leaves in a field: the source's when it gives one. */
  function MergeValue<T>(current: T, given: Option<T>): (r: T)
    ensures given.None? ==> r == current
    ensures given.Some? ==> r == given.value
  {
    match given
    case None => current
    case Some(v) => v
  }

  /** The fields after `merge(dst, src, field)`. */
  function Merged(dst: map<string, Value>, src: map<string, Value>, field: string): map<string, Value> {
    if field in src then dst[field := src[field]] else dst
  }

  /**
   * `merge`: when `src[field]` is defined and not the very value in `dst`, it
   * is copied into `dst`, component by component when a vector type `mat` is
   * given (`mat.copy`), by assignment otherwise.
   */
  method Merge(dst: Record, src: map<string, Value>, field: string, mat: bool)
    requires mat && field in src ==> src[field].Vector?
    modifies dst
    ensures dst.fields == Merged(old(dst.fields), src, field)
  {
    if field in src && (field !in dst.fields || src[field] != dst.fields[field]) {
      var v := src[field];
      if mat {
        dst.fields := dst.fields[field := Vector(v.x, v.y, v.z)];
      } else {
        dst.fields := dst.fields[field := v];
      }
    } else if field in src {
      assert dst.fields[field := src[field]] == dst.fields;
    }
  }

  /** An undefined source field leaves the record as it was. */
  lemma MergeUndefined(dst: map<string, Value>, src: map<string, Value>, field: string)
    requires field !in src
    ensures Merged(dst, src, field) == dst
  {
  }

  /** A defined source field is copied and every other field is left alone. */
  lemma MergeDefined(dst: map<string, Value>, src: map<string, Value>, field: string)
    requires field in src
    ensures field in Merged(dst, src, field) && Merged(dst, src, field)[field] == src[field]
    ensures Merged(dst, src, field).Keys == dst.Keys + {field}
    ensures forall k :: k in dst && k != field ==> Merged(dst, src, field)[k] == dst[k]
  {
  }

  /** Repeating the same `merge` changes nothing more. */
  lemma MergeIdempotent(dst: map<string, Value>, src: map<string, Value>, field: string)
    ensures Merged(Merged(dst, src, field), src, field) == Merged(dst, src, field)
  {
    if field in src {
      var m := Merged(dst, src, field);
      assert m[field := src[field]] == m;
    }
  }

  /** On one field, `Merged` gives the field `MergeValue` describes. */
  lemma MergedField(dst: map<string, Value>, src: map<string, Value>, field: string)
    requires field in dst
    ensures Merged(dst, src, field)[field] == MergeValue(dst[field], if field in src then Some(src[field]) else None)
  {
  }
}
