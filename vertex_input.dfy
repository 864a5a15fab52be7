/**
 * Vertex input descriptions: the binding and attribute tables a graphics
 * pipeline reads its vertices through, the builder that fills them in with
 * consecutive shader locations, and the fixed description of the renderer's
 * own Vertex layout.
 */
module VertexInput {
  import opened VkTypes

  const UINT32_MODULUS: nat := 0x1_0000_0000

  /** uint32_t. */
  type UInt32 = n: nat | n < UINT32_MODULUS

  /** VertexAttributeType: each value is the VkFormat of that shape of data. */
  datatype VertexAttributeType = Int | Int2 | Int3 | Float | Float2 | Float3 {
    function Format(): Format {
      match this
      case Int => FORMAT_R32_SINT
      case Int2 => FORMAT_R32G32_SINT
      case Int3 => FORMAT_R32G32B32_SINT
      case Float => FORMAT_R32_SFLOAT
      case Float2 => FORMAT_R32G32_SFLOAT
      case Float3 => FORMAT_R32G32B32_SFLOAT
    }

    /** Bytes one value of this type occupies (32-bit components). */
    function Size(): nat {
      match this
      case Int | Float => 4
      case Int2 | Float2 => 8
      case Int3 | Float3 => 12
    }
  }

  /** VertexInputDescription: bindings, attributes and the creation flags (0 by default). */
  datatype VertexInputDescription = VertexInputDescription(
    bindings: seq<VertexBinding>,
    attributes: seq<VertexAttribute>,
    flags: nat)

  /** The single per-vertex binding 0 with the given stride. */
  function MainBinding(stride: nat): VertexBinding {
    VertexBinding(0, stride, PerVertex)
  }

  /** The attribute the builder appends as its k-th push. */
  function PushedAttribute(k: nat, t: VertexAttributeType, offset: UInt32): VertexAttribute {
    VertexAttribute(k % UINT32_MODULUS, 0, t.Format(), offset)
  }

  /** One push_attrib call: the type and the byte offset inside the vertex. */
  datatype AttribPush = AttribPush(attribType: VertexAttributeType, offset: UInt32)

  class VertexInputDescriptionBuilder {
    var description: VertexInputDescription
    var attribLocation: UInt32

    /**
     * The counter is the number of pushes so far (modulo 2^32, the width of
     * the counter), and the k-th attribute sits at location k on binding 0.
     */
    ghost predicate Valid()
      reads this
    {
      && attribLocation == |description.attributes| % UINT32_MODULUS
      && forall k :: 0 <= k < |description.attributes| ==>
           description.attributes[k].location == k % UINT32_MODULUS && description.attributes[k].binding == 0
    }

    /** The sized constructor: one binding 0 of the given stride, consumed per vertex. */
    constructor (size: UInt32)
      ensures Valid()
      ensures description == VertexInputDescription([MainBinding(size)], [], 0)
      ensures attribLocation == 0
    {
      description := VertexInputDescription([MainBinding(size)], [], 0);
      attribLocation := 0;
    }

    /**
     * push_attrib: appends one attribute on binding 0 at the counter's
     * location with the type's format, then advances the counter (a uint32,
     * so it wraps). Bindings and flags are untouched.
     */
    method PushAttrib(t: VertexAttributeType, offset: UInt32)
      requires Valid()
      modifies this
      ensures Valid()
      ensures description.bindings == old(description.bindings)
      ensures description.flags == old(description.flags)
      ensures description.attributes == old(description.attributes) + [VertexAttribute(old(attribLocation), 0, t.Format(), offset)]
      ensures attribLocation == (old(attribLocation) + 1) % UINT32_MODULUS
    {
      var attribute := VertexAttribute(attribLocation, 0, t.Format(), offset);
      attribLocation := (attribLocation + 1) % UINT32_MODULUS;
      description := description.(attributes := description.attributes + [attribute]);
    }

    /** value(): a copy of the description accumulated so far. */
    function Value(): VertexInputDescription
      reads this
    {
      description
    }
  }

  /**
   * A sized builder followed by the given pushes: binding 0 with the given
   * stride, and the k-th push landing at location k with its own format and
   * offset.
   */
  method BuildDescription(size: UInt32, pushes: seq<AttribPush>) returns (d: VertexInputDescription)
    ensures d.bindings == [MainBinding(size)]
    ensures d.flags == 0
    ensures |d.attributes| == |pushes|
    ensures forall k :: 0 <= k < |pushes| ==>
      d.attributes[k] == PushedAttribute(k, pushes[k].attribType, pushes[k].offset)
  {
    var builder := new VertexInputDescriptionBuilder(size);
    var i := 0;
    while i < |pushes|
      invariant 0 <= i <= |pushes|
      invariant builder.Valid()
      invariant builder.description.bindings == [MainBinding(size)]
      invariant builder.description.flags == 0
      invariant |builder.description.attributes| == i
      invariant forall k :: 0 <= k < i ==>
        builder.description.attributes[k] == PushedAttribute(k, pushes[k].attribType, pushes[k].offset)
    {
      builder.PushAttrib(pushes[i].attribType, pushes[i].offset);
      i := i + 1;
    }
    d := builder.Value();
  }

  /** Size of Vertex: position, normal and colour (three floats each) and uv (two floats). */
  const VERTEX_SIZE: nat := 3 * 12 + 8
  const POSITION_OFFSET: nat := 0
  const NORMAL_OFFSET: nat := 12
  const COLOR_OFFSET: nat := 24

  /** Vertex::get_vertex_description. */
  function VertexDescription(): VertexInputDescription {
    VertexInputDescription(
      [MainBinding(VERTEX_SIZE)],
      [ VertexAttribute(0, 0, FORMAT_R32G32B32_SFLOAT, POSITION_OFFSET),
        VertexAttribute(1, 0, FORMAT_R32G32B32_SFLOAT, NORMAL_OFFSET),
        VertexAttribute(2, 0, FORMAT_R32G32B32_SFLOAT, COLOR_OFFSET)],
      0)
  }

  /**
   * A description a pipeline can consume: binding numbers are unique, every
   * attribute names a declared binding, locations are unique, and each
   * attribute lies inside its binding's stride.
   */
  ghost predicate WellFormed(d: VertexInputDescription) {
    && (forall i, j :: 0 <= i < j < |d.bindings| ==> d.bindings[i].binding != d.bindings[j].binding)
    && (forall i, j :: 0 <= i < j < |d.attributes| ==> d.attributes[i].location != d.attributes[j].location)
    && forall a :: a in d.attributes ==>
         exists b :: b in d.bindings && b.binding == a.binding && a.offset + FormatSize(a.format) <= b.stride
  }

  /** Bytes per value of the formats the renderer uses (0 for others). */
  function FormatSize(f: Format): nat {
    if f == FORMAT_R32_SINT || f == FORMAT_R32_SFLOAT then 4
    else if f == FORMAT_R32G32_SINT || f == FORMAT_R32G32_SFLOAT then 8
    else if f == FORMAT_R32G32B32_SINT || f == FORMAT_R32G32B32_SFLOAT then 12
    else 0
  }

  /**
   * The vertex description has exactly one binding (0, sizeof(Vertex), per
   * vertex) and three float3 attributes at locations 0, 1, 2, and it is well
   * formed: the three attributes do not overlap and fit in one vertex.
   */
  lemma VertexDescriptionShape()
    ensures var d := VertexDescription();
      && d.bindings == [VertexBinding(0, 44, PerVertex)]
      && |d.attributes| == 3
      && (forall k :: 0 <= k < 3 ==>
            d.attributes[k].location == k && d.attributes[k].binding == 0 && d.attributes[k].format == Float3.Format())
      && d.attributes[0].offset + 12 <= d.attributes[1].offset
      && d.attributes[1].offset + 12 <= d.attributes[2].offset
      && WellFormed(d)
  {
    var d := VertexDescription();
    forall a | a in d.attributes
      ensures exists b :: b in d.bindings && b.binding == a.binding && a.offset + FormatSize(a.format) <= b.stride
    {
      assert d.bindings[0] in d.bindings;
    }
  }

  /**
   * Any description the builder produces from consecutive, non-overlapping
   * pushes that fit inside the stride is well formed.
   */
  lemma {:induction false} BuiltDescriptionWellFormed(size: UInt32, pushes: seq<AttribPush>, d: VertexInputDescription)
    requires |pushes| <= UINT32_MODULUS
    requires forall k :: 0 <= k < |pushes| ==> pushes[k].offset + pushes[k].attribType.Size() <= size
    requires d.bindings == [MainBinding(size)]
    requires |d.attributes| == |pushes|
    requires forall k :: 0 <= k < |pushes| ==>
      d.attributes[k] == PushedAttribute(k, pushes[k].attribType, pushes[k].offset)
    ensures WellFormed(d)
  {
    forall i, j | 0 <= i < j < |d.attributes|
      ensures d.attributes[i].location != d.attributes[j].location
    {
      assert d.attributes[i].location == i && d.attributes[j].location == j;
    }
    var b := d.bindings[0];
    forall a | a in d.attributes
      ensures b in d.bindings && b.binding == a.binding && a.offset + FormatSize(a.format) <= b.stride
    {
      var k :| 0 <= k < |d.attributes| && d.attributes[k] == a;
      FormatSizeOfType(pushes[k].attribType);
    }
  }

  /** The byte size of an attribute type's format is the type's own size. */
  lemma FormatSizeOfType(t: VertexAttributeType)
    ensures FormatSize(t.Format()) == t.Size()
  {
  }

  /** Building the vertex description through the builder gives get_vertex_description's value. */
  method DescribeVertexWithBuilder() returns (d: VertexInputDescription)
    ensures d == VertexDescription()
    ensures WellFormed(d)
  {
    d := BuildDescription(VERTEX_SIZE, [AttribPush(Float3, POSITION_OFFSET), AttribPush(Float3, NORMAL_OFFSET), AttribPush(Float3, COLOR_OFFSET)]);
    VertexDescriptionShape();
  }
}
