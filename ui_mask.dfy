// ui/mask.go: a Mask component writes its rectangle into the stencil buffer
// one level above its parent's mask, so that widgets below it draw only
// inside it. The shader, mesh, uniforms and the GL calls themselves are left
// out; WriteMask reports the stencil and colour-mask state it sets, in order.

module UIMask {
  import opened Common
  import GL

  /** A component of a UI game object: an identity, whether it is a Widget,
      and the Mask it is, if it is one. */
  datatype Component = Component(id: nat, isWidget: bool, mask: Option<Mask>)

  /** The GL state changes WriteMask makes around drawing the mask's quad. */
  datatype GLOp =
    | StencilMask(bits: int)
    | StencilFunc(func: int, ref: int, bits: int)
    | StencilOp(sfail: int, dpfail: int, dppass: int)
    | ColorMask(write: bool)
    | DrawQuad

  class Mask {
    var maskID: UInt8

    constructor ()
      ensures maskID == 0
    {
      maskID := 0;
    }

    function MaskID(): UInt8
      reads this
    {
      maskID
    }

    method SetMaskID(maskID: UInt8)
      modifies this
      ensures MaskID() == maskID
    {
      this.maskID := maskID;
    }

    /** WriteMask: the reference level is the MaskID of the parent object's
        first Mask, or 0 when there is no parent or it has no Mask; the
        stencil test passes on EQUAL to that level and increments on pass
        while colour writes are off, and colour writes are back on at the end.
        parent is None when the game object has no parent, otherwise the
        parent's components. */
    method WriteMask(parent: Option<seq<Component>>) returns (level: UInt8, ops: seq<GLOp>)
      ensures parent.None? ==> level == 0
      ensures parent.Some? && FirstMask(parent.value).None? ==> level == 0
      ensures parent.Some? && FirstMask(parent.value).Some? ==> level == FirstMask(parent.value).value.maskID
      ensures ops == [StencilMask(0xFF), StencilFunc(GL.EQUAL, level, 0xFF), StencilOp(GL.KEEP, GL.INCR, GL.INCR),
                      ColorMask(false), DrawQuad, ColorMask(true)]
    {
      level := 0;
      if parent.Some? {
        var pm := MaskComponent(parent.value);
        if pm.Some? {
          level := pm.value.MaskID();
        }
      }
      ops := [StencilMask(0xFF), StencilFunc(GL.EQUAL, level, 0xFF), StencilOp(GL.KEEP, GL.INCR, GL.INCR)];
      ops := ops + [ColorMask(false)];
      ops := ops + [DrawQuad];
      ops := ops + [ColorMask(true)];
    }
  }

  /** The first Mask among the components, in list order, or None. */
  function FirstMask(cs: seq<Component>): (r: Option<Mask>)
    ensures r.Some? <==> exists i :: 0 <= i < |cs| && cs[i].mask.Some?
    ensures r.Some? ==> exists i :: && 0 <= i < |cs| && cs[i].mask == r
                                      && forall j :: 0 <= j < i ==> cs[j].mask.None?
  {
    if |cs| == 0 then None
    else if cs[0].mask.Some? then cs[0].mask
    else
      var r := FirstMask(cs[1..]);
      assert forall i :: 0 < i < |cs| ==> cs[i] == cs[1..][i - 1];
      r
  }

  /** MaskComponent scans the components in order and returns the first Mask. */
  method MaskComponent(cs: seq<Component>) returns (r: Option<Mask>)
    ensures r == FirstMask(cs)
  {
    var i := 0;
    while i < |cs|
      invariant 0 <= i <= |cs|
      invariant FirstMask(cs) == FirstMask(cs[i..])
    {
      if cs[i].mask.Some? {
        return cs[i].mask;
      }
      assert cs[i..][1..] == cs[i + 1..];
      i := i + 1;
    }
    return None;
  }

  /** FirstMask ignores everything after the first Mask. */
  lemma {:induction false} FirstMaskPrefix(cs: seq<Component>, rest: seq<Component>)
    requires FirstMask(cs).Some?
    ensures FirstMask(cs + rest) == FirstMask(cs)
    decreases |cs|
  {
    if cs[0].mask.None? {
      assert (cs + rest)[1..] == cs[1..] + rest;
      FirstMaskPrefix(cs[1..], rest);
    }
  }
}
