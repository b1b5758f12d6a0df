// The light classes and the fixed float layout each one packs into its
// lazily allocated buffer.
module Lights {
  import opened Js
  import opened Math3D
  import opened Colors

  /** `typedArray.set(values, offset)`: `values` overwrites the slots from `offset`. */
  function SetAt(s: seq<real>, values: seq<real>, offset: nat): seq<real>
    requires offset + |values| <= |s|
  {
    s[..offset] + values + s[offset + |values|..]
  }

  lemma SetAtSlots(s: seq<real>, values: seq<real>, offset: nat)
    requires offset + |values| <= |s|
    ensures |SetAt(s, values, offset)| == |s|
    ensures forall i :: 0 <= i < |values| ==> SetAt(s, values, offset)[offset + i] == values[i]
    ensures forall i :: 0 <= i < |s| && !(offset <= i < offset + |values|) ==> SetAt(s, values, offset)[i] == s[i]
  {
  }

  /** `buffer.set(values, offset)` on an array in place. */
  method CopyInto(buffer: array<real>, values: seq<real>, offset: nat)
    requires offset + |values| <= buffer.Length
    modifies buffer
    ensures buffer[..] == SetAt(old(buffer[..]), values, offset)
  {
    var i := 0;
    while i < |values|
      invariant 0 <= i <= |values|
      invariant forall k :: 0 <= k < buffer.Length && !(offset <= k < offset + i) ==> buffer[k] == old(buffer[k])
      invariant forall k :: 0 <= k < i ==> buffer[offset + k] == values[k]
    {
      buffer[offset + i] := values[i];
      i := i + 1;
    }
    SetAtSlots(old(buffer[..]), values, offset);
  }

  /** `Light.BUFFER_SIZE`: intensity and color. */
  const LIGHT_BUFFER_SIZE: nat := 4
  /** `DirectionLight.BUFFER_SIZE` and `PointLight.BUFFER_SIZE`. */
  const LIGHT_EXTENDED_BUFFER_SIZE: nat := 8

  /** The contents `Light.getBuffer` leaves: the color from slot 0, then the intensity at slot 3. */
  function LightPacked(prev: seq<real>, color: Color, intensity: real): (r: seq<real>)
    requires |prev| == LIGHT_BUFFER_SIZE
    ensures |r| == LIGHT_BUFFER_SIZE
    ensures r[0] == color.r && r[1] == color.g && r[2] == color.b && r[3] == intensity
  {
    SetAtSlots(prev, ColorArray(color), 0);
    SetAt(prev, ColorArray(color), 0)[3 := intensity]
  }

  /**
   * The contents `DirectionLight.getBuffer` leaves: the color from slot 0,
   * the intensity over its alpha at slot 3, the direction at 4..6; slot 7 is
   * never written.
   */
  function DirectionPacked(prev: seq<real>, color: Color, intensity: real, direction: Vec3): (r: seq<real>)
    requires |prev| == LIGHT_EXTENDED_BUFFER_SIZE
    ensures |r| == LIGHT_EXTENDED_BUFFER_SIZE
    ensures r[0] == color.r && r[1] == color.g && r[2] == color.b && r[3] == intensity
    ensures r[4] == direction.x && r[5] == direction.y && r[6] == direction.z
    ensures r[7] == prev[7]
  {
    var withColor := SetAt(prev, ColorArray(color), 0)[3 := intensity];
    SetAtSlots(prev, ColorArray(color), 0);
    SetAtSlots(withColor, Components(direction), 4);
    SetAt(withColor, Components(direction), 4)
  }

  /**
   * The contents `PointLight.getBuffer` leaves: the color (alpha included)
   * from slot 0, the position at 4..6 and the radius at 7; the intensity is
   * never written.
   */
  function PointPacked(prev: seq<real>, color: Color, position: Vec3, radius: real): (r: seq<real>)
    requires |prev| == LIGHT_EXTENDED_BUFFER_SIZE
    ensures |r| == LIGHT_EXTENDED_BUFFER_SIZE
    ensures r[0] == color.r && r[1] == color.g && r[2] == color.b && r[3] == color.alpha
    ensures r[4] == position.x && r[5] == position.y && r[6] == position.z && r[7] == radius
  {
    var withColor := SetAt(prev, ColorArray(color), 0);
    SetAtSlots(prev, ColorArray(color), 0);
    SetAtSlots(withColor, Components(position), 4);
    SetAt(withColor, Components(position), 4)[7 := radius]
  }

  /** A zero-filled `new Float32Array(n)`. */
  method Allocate(n: nat) returns (a: array<real>)
    ensures fresh(a) && a.Length == n && forall i :: 0 <= i < n ==> a[i] == 0.0
  {
    a := new real[n](_ => 0.0);
  }

  class Light {
    var intensity: real
    var color: Color
    var buffer: array?<real>

    /** The buffer, once allocated, has the class's fixed size. */
    ghost predicate Valid()
      reads this
    {
      buffer != null ==> buffer.Length == LIGHT_BUFFER_SIZE
    }

    /**
     * `new Light({intensity, color})`: an option left `undefined` (or the
     * whole options object omitted) takes its default, intensity 1 and
     * white.
     */
    constructor(intensity: Option<real>, color: Option<Color>)
      ensures intensity.None? ==> this.intensity == 1.0
      ensures intensity.Some? ==> this.intensity == intensity.value
      ensures color.None? ==> this.color == White
      ensures color.Some? ==> this.color == color.value
      ensures buffer == null && Valid()
    {
      this.intensity := intensity.OrElse(1.0);
      this.color := color.OrElse(White);
      buffer := null;
    }

    /** `getBuffer()`: allocate once, then repack the same array in place. */
    method GetBuffer() returns (b: array<real>)
      requires Valid()
      modifies this, buffer
      ensures Valid()
      ensures buffer == b && b.Length == LIGHT_BUFFER_SIZE
      ensures old(buffer) != null ==> b == old(buffer) && b[..] == LightPacked(old(buffer[..]), color, intensity)
      ensures old(buffer) == null ==> fresh(b) && b[..] == LightPacked(seq(LIGHT_BUFFER_SIZE, _ => 0.0), color, intensity)
      ensures intensity == old(intensity) && color == old(color)
    {
      if buffer == null {
        buffer := Allocate(LIGHT_BUFFER_SIZE);
      }
      b := buffer;
      ghost var prev := b[..];
      CopyInto(b, ColorArray(color), 0);
      b[3] := intensity;
      assert b[..] == SetAt(prev, ColorArray(color), 0)[3 := intensity];
    }
  }

  class DirectionLight {
    var intensity: real
    var color: Color
    var direction: Vec3
    var buffer: array?<real>

    /** The buffer, once allocated, has the class's fixed size. */
    ghost predicate Valid()
      reads this
    {
      buffer != null ==> buffer.Length == LIGHT_EXTENDED_BUFFER_SIZE
    }

    /**
     * `new DirectionLight({direction, intensity, color})`: an option left
     * `undefined` takes its default, `Vector3.DOWN`, 1 and white.
     */
    constructor(direction: Option<Vec3>, intensity: Option<real>, color: Option<Color>)
      ensures direction.None? ==> this.direction == Down
      ensures direction.Some? ==> this.direction == direction.value
      ensures intensity.None? ==> this.intensity == 1.0
      ensures intensity.Some? ==> this.intensity == intensity.value
      ensures color.None? ==> this.color == White
      ensures color.Some? ==> this.color == color.value
      ensures buffer == null && Valid()
    {
      this.direction := direction.OrElse(Down);
      this.intensity := intensity.OrElse(1.0);
      this.color := color.OrElse(White);
      buffer := null;
    }

    method GetBuffer() returns (b: array<real>)
      requires Valid()
      modifies this, buffer
      ensures Valid()
      ensures buffer == b && b.Length == LIGHT_EXTENDED_BUFFER_SIZE
      ensures old(buffer) != null ==> b == old(buffer) && b[..] == DirectionPacked(old(buffer[..]), color, intensity, direction)
      ensures old(buffer) == null ==>
        fresh(b) && b[..] == DirectionPacked(seq(LIGHT_EXTENDED_BUFFER_SIZE, _ => 0.0), color, intensity, direction)
      ensures intensity == old(intensity) && color == old(color) && direction == old(direction)
    {
      if buffer == null {
        buffer := Allocate(LIGHT_EXTENDED_BUFFER_SIZE);
      }
      b := buffer;
      ghost var prev := b[..];
      CopyInto(b, ColorArray(color), 0);
      b[3] := intensity;
      ghost var mid := b[..];
      assert mid == SetAt(prev, ColorArray(color), 0)[3 := intensity];
      CopyInto(b, Components(direction), 4);
    }
  }

  class PointLight {
    var intensity: real
    var color: Color
    var position: Vec3
    var radius: real
    var buffer: array?<real>

    /** The buffer, once allocated, has the class's fixed size. */
    ghost predicate Valid()
      reads this
    {
      buffer != null ==> buffer.Length == LIGHT_EXTENDED_BUFFER_SIZE
    }

    /**
     * `new PointLight({position, intensity, radius, color})`: an option left
     * `undefined` takes its default, `Vector3.ZERO`, 1, 10 and
     * `Color.WHITE`.
     */
    constructor(position: Option<Vec3>, intensity: Option<real>, radius: Option<real>, color: Option<Color>)
      ensures position.None? ==> this.position == Zero
      ensures position.Some? ==> this.position == position.value
      ensures intensity.None? ==> this.intensity == 1.0
      ensures intensity.Some? ==> this.intensity == intensity.value
      ensures radius.None? ==> this.radius == 10.0
      ensures radius.Some? ==> this.radius == radius.value
      ensures color.None? ==> this.color == White
      ensures color.Some? ==> this.color == color.value
      ensures buffer == null && Valid()
    {
      this.position := position.OrElse(Zero);
      this.intensity := intensity.OrElse(1.0);
      this.radius := radius.OrElse(10.0);
      this.color := color.OrElse(White);
      buffer := null;
    }

    method GetBuffer() returns (b: array<real>)
      requires Valid()
      modifies this, buffer
      ensures Valid()
      ensures buffer == b && b.Length == LIGHT_EXTENDED_BUFFER_SIZE
      ensures old(buffer) != null ==> b == old(buffer) && b[..] == PointPacked(old(buffer[..]), color, position, radius)
      ensures old(buffer) == null ==>
        fresh(b) && b[..] == PointPacked(seq(LIGHT_EXTENDED_BUFFER_SIZE, _ => 0.0), color, position, radius)
      ensures intensity == old(intensity) && color == old(color) && position == old(position) && radius == old(radius)
    {
      if buffer == null {
        buffer := Allocate(LIGHT_EXTENDED_BUFFER_SIZE);
      }
      b := buffer;
      ghost var prev := b[..];
      CopyInto(b, ColorArray(color), 0);
      CopyInto(b, Components(position), 4);
      b[7] := radius;
      ghost var mid := SetAt(prev, ColorArray(color), 0);
      assert b[..] == SetAt(mid, Components(position), 4)[7 := radius];
    }
  }
}
