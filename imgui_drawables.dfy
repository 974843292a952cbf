/**
  The drawable pool of the ImGui bridge: the `UIRect` drawables a geode
  holds, and `setRenderData`, which grows the pool to the number of ImGui
  command lists, switches every drawable off, and then switches on and fills
  one drawable per command list.

  ImGui's draw data is an input: a sequence of command lists, each with its
  vertex buffer, index buffer and commands. A command's scissor rectangle is
  computed from floating-point clip rectangles; it is carried as given.
*/
module ImGuiDrawables {

  /** `sizeof(ImDrawIdx)`: indices are 16-bit. */
  const SIZEOF_DRAW_IDX := 2

  /** The node mask that shows a drawable (`~0u`) and the one that hides it. */
  const MASK_ON: bv32 := 0xFFFF_FFFF
  const MASK_OFF: bv32 := 0

  /** One ImGui vertex (`ImDrawVert`); its byte layout is not modelled. */
  datatype DrawVert = DrawVert(x: real, y: real, u: real, v: real, col: bv32)

  /** A scissor rectangle as handed to the drawable. */
  datatype Scissor = Scissor(x: int, y: int, width: int, height: int)

  /** One ImGui draw command: where its indices start, how many it draws, and its scissor. */
  datatype DrawCmd = DrawCmd(idxOffset: nat, elemCount: nat, scissor: Scissor)

  /** One ImGui command list (`ImDrawList`). */
  datatype DrawList = DrawList(vtxBuffer: seq<DrawVert>, idxBuffer: seq<int>, cmdBuffer: seq<DrawCmd>)

  /** One entry of a drawable's primitive table: byte offset into the index buffer, index count, scissor. */
  datatype Primitive = Primitive(offset: int, count: int, scissor: Scissor)

  /** The value a resized primitive table gives its new entries. */
  const EMPTY_PRIMITIVE := Primitive(0, 0, Scissor(0, 0, 0, 0))

  /** `std::vector::resize`: keep a prefix, or pad with the default value. */
  function Resize<T>(s: seq<T>, n: nat, pad: T): (r: seq<T>)
    ensures |r| == n
    ensures forall i :: 0 <= i < n && i < |s| ==> r[i] == s[i]
    ensures forall i :: |s| <= i < n ==> r[i] == pad
  {
    if n <= |s| then s[..n] else s + seq(n - |s|, _ => pad)
  }

  /** The primitive a command becomes: its index offset in bytes, its count and its scissor. */
  function PrimitiveOf(cmd: DrawCmd): Primitive
  {
    Primitive(cmd.idxOffset * SIZEOF_DRAW_IDX, cmd.elemCount, cmd.scissor)
  }

  /** The primitive table a command list becomes, one entry per command. */
  function PrimitivesOf(list: DrawList): (r: seq<Primitive>)
    ensures |r| == |list.cmdBuffer|
    ensures forall j :: 0 <= j < |r| ==> r[j] == PrimitiveOf(list.cmdBuffer[j])
  {
    seq(|list.cmdBuffer|, j requires 0 <= j < |list.cmdBuffer| => PrimitiveOf(list.cmdBuffer[j]))
  }

  /** A command list whose commands address indices inside its own index buffer. */
  predicate CommandsInBounds(list: DrawList)
  {
    forall j :: 0 <= j < |list.cmdBuffer| ==>
      list.cmdBuffer[j].idxOffset + list.cmdBuffer[j].elemCount <= |list.idxBuffer|
  }

  /**
    The drawable draws only stored indices: when the command list addresses
    its own index buffer, every primitive's byte offset, converted back to an
    index, plus its count stays within the index buffer the drawable holds.
  */
  lemma PrimitivesStayInIndexBuffer(list: DrawList)
    requires CommandsInBounds(list)
    ensures forall j :: 0 <= j < |PrimitivesOf(list)| ==>
              PrimitivesOf(list)[j].offset % SIZEOF_DRAW_IDX == 0 &&
              PrimitivesOf(list)[j].offset / SIZEOF_DRAW_IDX + PrimitivesOf(list)[j].count <= |list.idxBuffer|
  {
    forall j | 0 <= j < |PrimitivesOf(list)|
      ensures PrimitivesOf(list)[j].offset % SIZEOF_DRAW_IDX == 0
      ensures PrimitivesOf(list)[j].offset / SIZEOF_DRAW_IDX + PrimitivesOf(list)[j].count <= |list.idxBuffer|
    {
      var cmd := list.cmdBuffer[j];
      assert PrimitivesOf(list)[j].offset == cmd.idxOffset * SIZEOF_DRAW_IDX;
      assert (cmd.idxOffset * SIZEOF_DRAW_IDX) / SIZEOF_DRAW_IDX == cmd.idxOffset;
    }
  }

  /** A drawable of the pool: node mask, vertex bytes, index buffer and primitive table. */
  class UIRect {
    var nodeMask: bv32
    var vertices: seq<DrawVert>
    var indices: seq<int>
    var pris: seq<Primitive>

    /** A new drawable is shown (a node's default mask) and holds nothing. */
    constructor ()
      ensures nodeMask == MASK_ON && vertices == [] && indices == [] && pris == []
    {
      nodeMask := MASK_ON;
      vertices := [];
      indices := [];
      pris := [];
    }

    method SetNodeMask(mask: bv32)
      modifies this
      ensures nodeMask == mask
      ensures vertices == old(vertices) && indices == old(indices) && pris == old(pris)
    {
      nodeMask := mask;
    }

    /** `setVertex`: copy the vertices. */
    method SetVertex(vtx: seq<DrawVert>)
      modifies this
      ensures vertices == vtx
      ensures nodeMask == old(nodeMask) && indices == old(indices) && pris == old(pris)
    {
      vertices := vtx;
    }

    /** `setIndex`: replace the index buffer by the given indices. */
    method SetIndex(idx: seq<int>)
      modifies this
      ensures indices == idx
      ensures nodeMask == old(nodeMask) && vertices == old(vertices) && pris == old(pris)
    {
      indices := idx;
    }

    /** `allocatePrimitves`: resize the primitive table. */
    method AllocatePrimitives(size: nat)
      modifies this
      ensures pris == Resize(old(pris), size, EMPTY_PRIMITIVE)
      ensures nodeMask == old(nodeMask) && vertices == old(vertices) && indices == old(indices)
    {
      pris := Resize(pris, size, EMPTY_PRIMITIVE);
    }

    /** `setPrimitive`: overwrite one entry of the table. */
    method SetPrimitive(idx: nat, offset: int, num: int, scissor: Scissor)
      requires idx < |pris|
      modifies this
      ensures pris == old(pris)[idx := Primitive(offset, num, scissor)]
      ensures nodeMask == old(nodeMask) && vertices == old(vertices) && indices == old(indices)
    {
      pris := pris[idx := Primitive(offset, num, scissor)];
    }

    /** The drawable is shown and holds exactly what the command list says. */
    ghost predicate Holds(list: DrawList)
      reads this
    {
      nodeMask == MASK_ON && vertices == list.vtxBuffer && indices == list.idxBuffer && pris == PrimitivesOf(list)
    }

    /** The body of the per-list loop of `setRenderData`: show the drawable and fill it from one command list. */
    method Fill(list: DrawList)
      modifies this
      ensures Holds(list)
    {
      SetNodeMask(MASK_ON);
      SetVertex(list.vtxBuffer);
      SetIndex(list.idxBuffer);
      AllocatePrimitives(|list.cmdBuffer|);
      var j := 0;
      while j < |list.cmdBuffer|
        invariant 0 <= j <= |list.cmdBuffer| == |pris|
        invariant forall k :: 0 <= k < j ==> pris[k] == PrimitiveOf(list.cmdBuffer[k])
        invariant nodeMask == MASK_ON && vertices == list.vtxBuffer && indices == list.idxBuffer
      {
        var cmd := list.cmdBuffer[j];
        SetPrimitive(j, cmd.idxOffset * SIZEOF_DRAW_IDX, cmd.elemCount, cmd.scissor);
        j := j + 1;
      }
    }
  }

  /** A geode of the pool: its drawables, in order. */
  class Geode {
    var drawables: seq<UIRect>

    /** No drawable is held twice. */
    ghost predicate Valid()
      reads this
    {
      forall i, j :: 0 <= i < j < |drawables| ==> drawables[i] != drawables[j]
    }

    constructor ()
      ensures Valid() && drawables == []
    {
      drawables := [];
    }

    /** `addChild`: append a drawable not yet held. */
    method AddChild(r: UIRect)
      requires Valid() && r !in drawables
      modifies this
      ensures Valid() && drawables == old(drawables) + [r]
    {
      drawables := drawables + [r];
    }
  }

  /**
    `setRenderData`, from the point where the framebuffer size is known.
    Nothing changes when either framebuffer dimension is 0; otherwise the
    drawables are rebuilt as `RebuildPool` says.
  */
  method SetRenderData(grp: Geode, lists: seq<DrawList>, fbWidth: int, fbHeight: int)
    requires grp.Valid()
    modifies grp, grp.drawables
    ensures grp.Valid()
    ensures fbWidth == 0 || fbHeight == 0 ==>
              grp.drawables == old(grp.drawables)
              && forall i :: 0 <= i < |grp.drawables| ==>
                   grp.drawables[i].nodeMask == old(grp.drawables[i].nodeMask)
                   && grp.drawables[i].vertices == old(grp.drawables[i].vertices)
                   && grp.drawables[i].indices == old(grp.drawables[i].indices)
                   && grp.drawables[i].pris == old(grp.drawables[i].pris)
    ensures forall k :: |old(grp.drawables)| <= k < |grp.drawables| ==> fresh(grp.drawables[k])
    ensures fbWidth != 0 && fbHeight != 0 ==>
              && |grp.drawables| == (if |old(grp.drawables)| < |lists| then |lists| else |old(grp.drawables)|)
              && grp.drawables[..|old(grp.drawables)|] == old(grp.drawables)
              && (forall i :: 0 <= i < |lists| ==> grp.drawables[i].Holds(lists[i]))
              && (forall i :: |lists| <= i < |grp.drawables| ==>
                    grp.drawables[i].nodeMask == MASK_OFF
                    && grp.drawables[i].vertices == old(grp.drawables[i].vertices)
                    && grp.drawables[i].indices == old(grp.drawables[i].indices)
                    && grp.drawables[i].pris == old(grp.drawables[i].pris))
  {
    if fbWidth != 0 && fbHeight != 0 {
      RebuildPool(grp, lists);
    }
  }

  /**
    The rebuilding part of `setRenderData`: the pool grows to at least one
    drawable per command list and never shrinks; drawables that serve a
    command list are shown and hold its buffers and primitive table; every
    other drawable is hidden and keeps its buffers.
  */
  method RebuildPool(grp: Geode, lists: seq<DrawList>)
    requires grp.Valid()
    modifies grp, grp.drawables
    ensures grp.Valid()
    ensures |grp.drawables| == (if |old(grp.drawables)| < |lists| then |lists| else |old(grp.drawables)|)
    ensures grp.drawables[..|old(grp.drawables)|] == old(grp.drawables)
    ensures forall k :: |old(grp.drawables)| <= k < |grp.drawables| ==> fresh(grp.drawables[k])
    ensures forall i :: 0 <= i < |lists| ==> grp.drawables[i].Holds(lists[i])
    ensures forall i :: |lists| <= i < |grp.drawables| ==>
              grp.drawables[i].nodeMask == MASK_OFF
              && grp.drawables[i].vertices == old(grp.drawables[i].vertices)
              && grp.drawables[i].indices == old(grp.drawables[i].indices)
              && grp.drawables[i].pris == old(grp.drawables[i].pris)
  {
    GrowPool(grp, |lists|);
    HideAll(grp);
    ShowAndFill(grp, lists);
  }

  /** The first loop of `setRenderData`: add new drawables until there is one per command list. */
  method GrowPool(grp: Geode, count: nat)
    requires grp.Valid()
    modifies grp
    ensures grp.Valid()
    ensures |grp.drawables| == (if |old(grp.drawables)| < count then count else |old(grp.drawables)|)
    ensures grp.drawables[..|old(grp.drawables)|] == old(grp.drawables)
    ensures forall k :: |old(grp.drawables)| <= k < |grp.drawables| ==> fresh(grp.drawables[k])
  {
    if |grp.drawables| < count {
      var num := count - |grp.drawables|;
      var i := 0;
      while i < num
        invariant 0 <= i <= num
        invariant grp.Valid()
        invariant |grp.drawables| == |old(grp.drawables)| + i
        invariant grp.drawables[..|old(grp.drawables)|] == old(grp.drawables)
        invariant forall k :: |old(grp.drawables)| <= k < |grp.drawables| ==> fresh(grp.drawables[k])
      {
        var rect := new UIRect();
        grp.AddChild(rect);
        i := i + 1;
      }
    }
  }

  /** The second loop of `setRenderData`: hide every drawable of the pool, keeping its buffers. */
  method HideAll(grp: Geode)
    modifies grp.drawables
    ensures forall k :: 0 <= k < |grp.drawables| ==>
              grp.drawables[k].nodeMask == MASK_OFF
              && grp.drawables[k].vertices == old(grp.drawables[k].vertices)
              && grp.drawables[k].indices == old(grp.drawables[k].indices)
              && grp.drawables[k].pris == old(grp.drawables[k].pris)
  {
    var i := 0;
    while i < |grp.drawables|
      invariant 0 <= i <= |grp.drawables|
      invariant forall k :: 0 <= k < i ==> grp.drawables[k].nodeMask == MASK_OFF
      invariant forall k :: 0 <= k < |grp.drawables| ==>
                  grp.drawables[k].vertices == old(grp.drawables[k].vertices)
                  && grp.drawables[k].indices == old(grp.drawables[k].indices)
                  && grp.drawables[k].pris == old(grp.drawables[k].pris)
    {
      grp.drawables[i].SetNodeMask(MASK_OFF);
      i := i + 1;
    }
  }

  /** The third loop of `setRenderData`: drawable i shows and holds command list i; the others are untouched. */
  method ShowAndFill(grp: Geode, lists: seq<DrawList>)
    requires grp.Valid() && |lists| <= |grp.drawables|
    modifies grp.drawables
    ensures forall k :: 0 <= k < |lists| ==> grp.drawables[k].Holds(lists[k])
    ensures forall k :: |lists| <= k < |grp.drawables| ==>
              grp.drawables[k].nodeMask == old(grp.drawables[k].nodeMask)
              && grp.drawables[k].vertices == old(grp.drawables[k].vertices)
              && grp.drawables[k].indices == old(grp.drawables[k].indices)
              && grp.drawables[k].pris == old(grp.drawables[k].pris)
  {
    var i := 0;
    while i < |lists|
      invariant 0 <= i <= |lists|
      invariant forall k :: 0 <= k < i ==> grp.drawables[k].Holds(lists[k])
      invariant forall k :: i <= k < |grp.drawables| ==>
                  grp.drawables[k].nodeMask == old(grp.drawables[k].nodeMask)
                  && grp.drawables[k].vertices == old(grp.drawables[k].vertices)
                  && grp.drawables[k].indices == old(grp.drawables[k].indices)
                  && grp.drawables[k].pris == old(grp.drawables[k].pris)
    {
      grp.drawables[i].Fill(lists[i]);
      i := i + 1;
    }
  }
}
