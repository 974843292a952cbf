/**
  The attribute lists handed to WGL: the pixel-format specification built from
  the window traits, the retry order used when no format matches, and the
  zero-terminated OpenGL 3 context attribute array.

  A WGL attribute list is a flat sequence of integers: (identifier, value)
  pairs followed by a single 0.
*/
module PixelFormat {
  import opened Common

  // ---------------------------------------------------------------------------
  // WGL_ARB_pixel_format and WGL_ARB_create_context constants
  // ---------------------------------------------------------------------------

  const WGL_DRAW_TO_WINDOW_ARB := 0x2001
  const WGL_ACCELERATION_ARB := 0x2003
  const WGL_SWAP_METHOD_ARB := 0x2007
  const WGL_SUPPORT_OPENGL_ARB := 0x2010
  const WGL_DOUBLE_BUFFER_ARB := 0x2011
  const WGL_STEREO_ARB := 0x2012
  const WGL_PIXEL_TYPE_ARB := 0x2013
  const WGL_COLOR_BITS_ARB := 0x2014
  const WGL_RED_BITS_ARB := 0x2015
  const WGL_GREEN_BITS_ARB := 0x2017
  const WGL_BLUE_BITS_ARB := 0x2019
  const WGL_ALPHA_BITS_ARB := 0x201B
  const WGL_DEPTH_BITS_ARB := 0x2022
  const WGL_STENCIL_BITS_ARB := 0x2023
  const WGL_FULL_ACCELERATION_ARB := 0x2027
  const WGL_SWAP_EXCHANGE_ARB := 0x2028
  const WGL_SWAP_COPY_ARB := 0x2029
  const WGL_SWAP_UNDEFINED_ARB := 0x202A
  const WGL_TYPE_RGBA_ARB := 0x202B
  const WGL_SAMPLE_BUFFERS_ARB := 0x2041
  const WGL_SAMPLES_ARB := 0x2042

  const WGL_CONTEXT_MAJOR_VERSION_ARB := 0x2091
  const WGL_CONTEXT_MINOR_VERSION_ARB := 0x2092
  const WGL_CONTEXT_FLAGS_ARB := 0x2094
  const WGL_CONTEXT_PROFILE_MASK_ARB := 0x9126

  /** The number of slots of the context attribute array. */
  const CONTEXT_ATTRIBS_SLOTS := 16

  // ---------------------------------------------------------------------------
  // Attribute lists as values
  // ---------------------------------------------------------------------------

  /** One (identifier, value) entry of an attribute list. */
  datatype Attribute = Attribute(id: int, value: int)

  /** The flat encoding of the entries, without the terminator. */
  function Flatten(entries: seq<Attribute>): (r: seq<int>)
    ensures |r| == 2 * |entries|
  {
    if entries == [] then [] else [entries[0].id, entries[0].value] + Flatten(entries[1..])
  }

  /** The complete list: the entries followed by the 0 that ends it. */
  function Terminated(entries: seq<Attribute>): (r: seq<int>)
    ensures |r| == 2 * |entries| + 1 && r[|r| - 1] == 0
  {
    Flatten(entries) + [0]
  }

  /** No entry uses 0 as its identifier, so the first 0 in an identifier slot is the terminator. */
  predicate NoZeroIds(entries: seq<Attribute>)
  {
    forall i :: 0 <= i < |entries| ==> entries[i].id != 0
  }

  /** How a reader of the list sees it: pairs up to the first 0 identifier; None when the list ends without one. */
  function Decode(list: seq<int>): (r: Option<seq<Attribute>>)
    decreases |list|
  {
    if list == [] then None
    else if list[0] == 0 then Some([])
    else if |list| == 1 then None
    else match Decode(list[2..])
      case None => None
      case Some(rest) => Some([Attribute(list[0], list[1])] + rest)
  }

  /** Reading a terminated list gives back its entries. */
  lemma {:induction false} DecodeTerminated(entries: seq<Attribute>)
    requires NoZeroIds(entries)
    ensures Decode(Terminated(entries)) == Some(entries)
  {
    if entries == [] {
    } else {
      var list := Terminated(entries);
      assert list == [entries[0].id, entries[0].value] + Terminated(entries[1..]);
      assert list[2..] == Terminated(entries[1..]);
      DecodeTerminated(entries[1..]);
      assert list[0] == entries[0].id != 0 && list[1] == entries[0].value;
      assert [Attribute(list[0], list[1])] + entries[1..] == entries;
    }
  }

  /** The identifiers of the entries, in order. */
  function Ids(entries: seq<Attribute>): (r: seq<int>)
    ensures |r| == |entries|
    ensures forall i :: 0 <= i < |entries| ==> r[i] == entries[i].id
  {
    seq(|entries|, i requires 0 <= i < |entries| => entries[i].id)
  }

  /** The identifiers of a concatenation are the identifiers of its parts. */
  lemma IdsConcat(a: seq<Attribute>, b: seq<Attribute>)
    ensures Ids(a + b) == Ids(a) + Ids(b)
  {
    assert forall i :: 0 <= i < |a + b| ==> Ids(a + b)[i] == (Ids(a) + Ids(b))[i];
  }

  /** The value of the first entry with the identifier, as a reader of the list finds it. */
  function Find(entries: seq<Attribute>, id: int): (r: Option<int>)
  {
    if entries == [] then None
    else if entries[0].id == id then Some(entries[0].value)
    else Find(entries[1..], id)
  }

  /** A reader finds the value of the first entry with the identifier, and nothing when no entry has it. */
  lemma {:induction false} FindFirst(entries: seq<Attribute>, id: int, k: int)
    requires 0 <= k <= |entries|
    requires id !in Ids(entries)[..k]
    ensures k < |entries| && entries[k].id == id ==> Find(entries, id) == Some(entries[k].value)
    ensures k == |entries| ==> Find(entries, id) == None
  {
    if entries != [] && entries[0].id != id && k > 0 {
      assert Ids(entries[1..])[..k - 1] == Ids(entries)[1..k];
      FindFirst(entries[1..], id, k - 1);
    }
  }

  // ---------------------------------------------------------------------------
  // The attribute builder
  // ---------------------------------------------------------------------------

  /** The integer attribute builder: a growing flat list that `End` terminates. */
  class IntegerAttributes {
    var parameters: seq<int>

    constructor ()
      ensures parameters == []
    {
      parameters := [];
    }

    /** Start a new list. */
    method Begin()
      modifies this
      ensures parameters == []
    {
      parameters := [];
    }

    /** Append an (identifier, value) pair. */
    method Set(id: int, value: int)
      modifies this
      ensures parameters == old(parameters) + [id, value]
    {
      parameters := parameters + [id, value];
    }

    /** Append an identifier with the value 1. */
    method Enable(id: int)
      modifies this
      ensures parameters == old(parameters) + [id, 1]
    {
      Set(id, 1);
    }

    /** Append the terminating 0. */
    method End()
      modifies this
      ensures parameters == old(parameters) + [0]
    {
      parameters := parameters + [0];
    }
  }

  // ---------------------------------------------------------------------------
  // PreparePixelFormatSpecifications
  // ---------------------------------------------------------------------------

  /** The swap method the traits ask for. */
  datatype SwapMethod = SwapDefault | SwapExchange | SwapCopy | SwapUndefined

  /** The part of the window traits the pixel-format specification reads. */
  datatype Traits = Traits(red: nat, green: nat, blue: nat, alpha: nat, depth: nat, stencil: nat,
                           sampleBuffers: nat, samples: nat,
                           doubleBuffer: bool, swapMethod: SwapMethod, quadBufferStereo: bool)

  /** An entry when the value is nonzero, nothing otherwise. */
  function IfNonzero(id: int, value: nat): seq<Attribute>
  {
    if value != 0 then [Attribute(id, value)] else []
  }

  /** The swap-method entry of a double-buffered format. */
  function SwapEntry(method_: SwapMethod, allowSwapExchangeARB: bool): seq<Attribute>
  {
    match method_
    case SwapCopy => [Attribute(WGL_SWAP_METHOD_ARB, WGL_SWAP_COPY_ARB)]
    case SwapExchange => [Attribute(WGL_SWAP_METHOD_ARB, WGL_SWAP_EXCHANGE_ARB)]
    case SwapUndefined => [Attribute(WGL_SWAP_METHOD_ARB, WGL_SWAP_UNDEFINED_ARB)]
    case SwapDefault => if allowSwapExchangeARB then [Attribute(WGL_SWAP_METHOD_ARB, WGL_SWAP_EXCHANGE_ARB)] else []
  }

  /** The fixed leading entries: window drawing, OpenGL, full acceleration, RGBA and the colour and depth sizes. */
  function BaseEntries(traits: Traits): seq<Attribute>
  {
    [Attribute(WGL_DRAW_TO_WINDOW_ARB, 1),
     Attribute(WGL_SUPPORT_OPENGL_ARB, 1),
     Attribute(WGL_ACCELERATION_ARB, WGL_FULL_ACCELERATION_ARB),
     Attribute(WGL_PIXEL_TYPE_ARB, WGL_TYPE_RGBA_ARB),
     Attribute(WGL_COLOR_BITS_ARB, traits.red + traits.green + traits.blue),
     Attribute(WGL_RED_BITS_ARB, traits.red),
     Attribute(WGL_GREEN_BITS_ARB, traits.green),
     Attribute(WGL_BLUE_BITS_ARB, traits.blue),
     Attribute(WGL_DEPTH_BITS_ARB, traits.depth)]
  }

  /** The entries of a double-buffered format. */
  function BufferingEntries(traits: Traits, allowSwapExchangeARB: bool): seq<Attribute>
  {
    if traits.doubleBuffer then [Attribute(WGL_DOUBLE_BUFFER_ARB, 1)] + SwapEntry(traits.swapMethod, allowSwapExchangeARB)
    else []
  }

  /** The entries that appear only when their value is nonzero, and stereo. */
  function OptionalEntries(traits: Traits): seq<Attribute>
  {
    IfNonzero(WGL_ALPHA_BITS_ARB, traits.alpha)
    + IfNonzero(WGL_STENCIL_BITS_ARB, traits.stencil)
    + IfNonzero(WGL_SAMPLE_BUFFERS_ARB, traits.sampleBuffers)
    + IfNonzero(WGL_SAMPLES_ARB, traits.samples)
    + (if traits.quadBufferStereo then [Attribute(WGL_STEREO_ARB, 1)] else [])
  }

  /** The pixel-format specification, entry by entry, in the order it is built. */
  function PixelFormatEntries(traits: Traits, allowSwapExchangeARB: bool): seq<Attribute>
  {
    BaseEntries(traits) + BufferingEntries(traits, allowSwapExchangeARB) + OptionalEntries(traits)
  }

  /** Every entry of the specification has a nonzero identifier, so the list reads back whole. */
  lemma PixelFormatEntriesDecode(traits: Traits, allowSwapExchangeARB: bool)
    ensures NoZeroIds(PixelFormatEntries(traits, allowSwapExchangeARB))
    ensures Decode(Terminated(PixelFormatEntries(traits, allowSwapExchangeARB)))
            == Some(PixelFormatEntries(traits, allowSwapExchangeARB))
  {
    var base, buffering, optional :=
      BaseEntries(traits), BufferingEntries(traits, allowSwapExchangeARB), OptionalEntries(traits);
    assert NoZeroIds(base);
    assert NoZeroIds(buffering);
    assert NoZeroIds(optional);
    NoZeroIdsConcat(base, buffering);
    NoZeroIdsConcat(base + buffering, optional);
    DecodeTerminated(PixelFormatEntries(traits, allowSwapExchangeARB));
  }

  /** Two lists without a zero identifier concatenate to one. */
  lemma NoZeroIdsConcat(a: seq<Attribute>, b: seq<Attribute>)
    requires NoZeroIds(a) && NoZeroIds(b)
    ensures NoZeroIds(a + b)
  {
    forall i | 0 <= i < |a + b|
      ensures (a + b)[i].id != 0
    {
      if i >= |a| {
        assert (a + b)[i] == b[i - |a|];
      }
    }
  }

  /** Flattening distributes over concatenation. */
  lemma {:induction false} FlattenConcat(a: seq<Attribute>, b: seq<Attribute>)
    ensures Flatten(a + b) == Flatten(a) + Flatten(b)
  {
    if a == [] {
      assert a + b == b;
    } else {
      assert (a + b)[1..] == a[1..] + b;
      FlattenConcat(a[1..], b);
    }
  }

  /** Appending one entry appends its identifier and value. */
  lemma FlattenSnoc(prefix: seq<Attribute>, a: Attribute)
    ensures Flatten(prefix + [a]) == Flatten(prefix) + [a.id, a.value]
  {
    FlattenConcat(prefix, [a]);
    assert [a][1..] == [];
  }

  /** Append the fixed leading entries. */
  method SetBaseEntries(traits: Traits, attributes: IntegerAttributes)
    modifies attributes
    ensures attributes.parameters == old(attributes.parameters) + Flatten(BaseEntries(traits))
  {
    ghost var start := attributes.parameters;
    ghost var done: seq<Attribute> := [];
    attributes.Enable(WGL_DRAW_TO_WINDOW_ARB);
    FlattenSnoc(done, Attribute(WGL_DRAW_TO_WINDOW_ARB, 1));
    done := done + [Attribute(WGL_DRAW_TO_WINDOW_ARB, 1)];
    attributes.Enable(WGL_SUPPORT_OPENGL_ARB);
    FlattenSnoc(done, Attribute(WGL_SUPPORT_OPENGL_ARB, 1));
    done := done + [Attribute(WGL_SUPPORT_OPENGL_ARB, 1)];
    assert attributes.parameters == start + Flatten(done);
    attributes.Set(WGL_ACCELERATION_ARB, WGL_FULL_ACCELERATION_ARB);
    FlattenSnoc(done, Attribute(WGL_ACCELERATION_ARB, WGL_FULL_ACCELERATION_ARB));
    done := done + [Attribute(WGL_ACCELERATION_ARB, WGL_FULL_ACCELERATION_ARB)];
    attributes.Set(WGL_PIXEL_TYPE_ARB, WGL_TYPE_RGBA_ARB);
    FlattenSnoc(done, Attribute(WGL_PIXEL_TYPE_ARB, WGL_TYPE_RGBA_ARB));
    done := done + [Attribute(WGL_PIXEL_TYPE_ARB, WGL_TYPE_RGBA_ARB)];
    assert attributes.parameters == start + Flatten(done);
    attributes.Set(WGL_COLOR_BITS_ARB, traits.red + traits.green + traits.blue);
    FlattenSnoc(done, Attribute(WGL_COLOR_BITS_ARB, traits.red + traits.green + traits.blue));
    done := done + [Attribute(WGL_COLOR_BITS_ARB, traits.red + traits.green + traits.blue)];
    attributes.Set(WGL_RED_BITS_ARB, traits.red);
    FlattenSnoc(done, Attribute(WGL_RED_BITS_ARB, traits.red));
    done := done + [Attribute(WGL_RED_BITS_ARB, traits.red)];
    assert attributes.parameters == start + Flatten(done);
    attributes.Set(WGL_GREEN_BITS_ARB, traits.green);
    FlattenSnoc(done, Attribute(WGL_GREEN_BITS_ARB, traits.green));
    done := done + [Attribute(WGL_GREEN_BITS_ARB, traits.green)];
    attributes.Set(WGL_BLUE_BITS_ARB, traits.blue);
    FlattenSnoc(done, Attribute(WGL_BLUE_BITS_ARB, traits.blue));
    done := done + [Attribute(WGL_BLUE_BITS_ARB, traits.blue)];
    assert attributes.parameters == start + Flatten(done);
    attributes.Set(WGL_DEPTH_BITS_ARB, traits.depth);
    FlattenSnoc(done, Attribute(WGL_DEPTH_BITS_ARB, traits.depth));
    done := done + [Attribute(WGL_DEPTH_BITS_ARB, traits.depth)];
    assert attributes.parameters == start + Flatten(done);
    assert done == BaseEntries(traits);
  }

  /** Append the double-buffering entries. */
  method SetBufferingEntries(traits: Traits, attributes: IntegerAttributes, allowSwapExchangeARB: bool)
    modifies attributes
    ensures attributes.parameters == old(attributes.parameters) + Flatten(BufferingEntries(traits, allowSwapExchangeARB))
  {
    if traits.doubleBuffer {
      ghost var start := attributes.parameters;
      attributes.Enable(WGL_DOUBLE_BUFFER_ARB);
      FlattenSnoc([], Attribute(WGL_DOUBLE_BUFFER_ARB, 1));
      assert attributes.parameters == start + Flatten([Attribute(WGL_DOUBLE_BUFFER_ARB, 1)]);
      ghost var swap: Attribute;
      match traits.swapMethod {
        case SwapCopy =>
          attributes.Set(WGL_SWAP_METHOD_ARB, WGL_SWAP_COPY_ARB);
          swap := Attribute(WGL_SWAP_METHOD_ARB, WGL_SWAP_COPY_ARB);
        case SwapExchange =>
          attributes.Set(WGL_SWAP_METHOD_ARB, WGL_SWAP_EXCHANGE_ARB);
          swap := Attribute(WGL_SWAP_METHOD_ARB, WGL_SWAP_EXCHANGE_ARB);
        case SwapUndefined =>
          attributes.Set(WGL_SWAP_METHOD_ARB, WGL_SWAP_UNDEFINED_ARB);
          swap := Attribute(WGL_SWAP_METHOD_ARB, WGL_SWAP_UNDEFINED_ARB);
        case SwapDefault =>
          if allowSwapExchangeARB {
            attributes.Set(WGL_SWAP_METHOD_ARB, WGL_SWAP_EXCHANGE_ARB);
          }
          swap := Attribute(WGL_SWAP_METHOD_ARB, WGL_SWAP_EXCHANGE_ARB);
      }
      FlattenSnoc([Attribute(WGL_DOUBLE_BUFFER_ARB, 1)], swap);
      assert SwapEntry(traits.swapMethod, allowSwapExchangeARB) == [] ==>
               BufferingEntries(traits, allowSwapExchangeARB) == [Attribute(WGL_DOUBLE_BUFFER_ARB, 1)];
    }
  }

  /** `if (value) attributes.set(id, value)`: append the entry only when its value is nonzero. */
  method SetIfNonzero(attributes: IntegerAttributes, id: int, value: nat)
    modifies attributes
    ensures attributes.parameters == old(attributes.parameters) + Flatten(IfNonzero(id, value))
  {
    if value != 0 {
      attributes.Set(id, value);
      FlattenSnoc([], Attribute(id, value));
    }
  }

  /** The flattening of the optional entries, piece by piece. */
  lemma OptionalFlatten(traits: Traits)
    ensures Flatten(OptionalEntries(traits)) ==
            Flatten(IfNonzero(WGL_ALPHA_BITS_ARB, traits.alpha))
            + Flatten(IfNonzero(WGL_STENCIL_BITS_ARB, traits.stencil))
            + Flatten(IfNonzero(WGL_SAMPLE_BUFFERS_ARB, traits.sampleBuffers))
            + Flatten(IfNonzero(WGL_SAMPLES_ARB, traits.samples))
            + Flatten(if traits.quadBufferStereo then [Attribute(WGL_STEREO_ARB, 1)] else [])
  {
    var a := IfNonzero(WGL_ALPHA_BITS_ARB, traits.alpha);
    var s := IfNonzero(WGL_STENCIL_BITS_ARB, traits.stencil);
    var sb := IfNonzero(WGL_SAMPLE_BUFFERS_ARB, traits.sampleBuffers);
    var n := IfNonzero(WGL_SAMPLES_ARB, traits.samples);
    var st: seq<Attribute> := if traits.quadBufferStereo then [Attribute(WGL_STEREO_ARB, 1)] else [];
    FlattenConcat(a, s);
    FlattenConcat(a + s, sb);
    FlattenConcat(a + s + sb, n);
    FlattenConcat(a + s + sb + n, st);
  }

  /** Append the entries that depend on nonzero sizes, and stereo. */
  method SetOptionalEntries(traits: Traits, attributes: IntegerAttributes)
    modifies attributes
    ensures attributes.parameters == old(attributes.parameters) + Flatten(OptionalEntries(traits))
  {
    ghost var start := attributes.parameters;
    ghost var a := IfNonzero(WGL_ALPHA_BITS_ARB, traits.alpha);
    ghost var st := IfNonzero(WGL_STENCIL_BITS_ARB, traits.stencil);
    ghost var sb := IfNonzero(WGL_SAMPLE_BUFFERS_ARB, traits.sampleBuffers);
    ghost var n := IfNonzero(WGL_SAMPLES_ARB, traits.samples);
    ghost var q: seq<Attribute> := if traits.quadBufferStereo then [Attribute(WGL_STEREO_ARB, 1)] else [];
    SetIfNonzero(attributes, WGL_ALPHA_BITS_ARB, traits.alpha);
    SetIfNonzero(attributes, WGL_STENCIL_BITS_ARB, traits.stencil);
    assert attributes.parameters == start + (Flatten(a) + Flatten(st));
    SetIfNonzero(attributes, WGL_SAMPLE_BUFFERS_ARB, traits.sampleBuffers);
    SetIfNonzero(attributes, WGL_SAMPLES_ARB, traits.samples);
    assert attributes.parameters == start + (Flatten(a) + Flatten(st) + Flatten(sb) + Flatten(n));
    if traits.quadBufferStereo {
      attributes.Enable(WGL_STEREO_ARB);
      FlattenSnoc([], Attribute(WGL_STEREO_ARB, 1));
    }
    assert attributes.parameters == start + (Flatten(a) + Flatten(st) + Flatten(sb) + Flatten(n) + Flatten(q));
    OptionalFlatten(traits);
  }

  /**
    `PreparePixelFormatSpecifications`: rebuild the list step by step from
    the traits and close it.
  */
  method PreparePixelFormatSpecifications(traits: Traits, attributes: IntegerAttributes, allowSwapExchangeARB: bool)
    modifies attributes
    ensures attributes.parameters == Terminated(PixelFormatEntries(traits, allowSwapExchangeARB))
  {
    ghost var base, buffering, optional :=
      BaseEntries(traits), BufferingEntries(traits, allowSwapExchangeARB), OptionalEntries(traits);
    attributes.Begin();
    SetBaseEntries(traits, attributes);
    assert attributes.parameters == Flatten(base);
    SetBufferingEntries(traits, attributes, allowSwapExchangeARB);
    FlattenConcat(base, buffering);
    assert attributes.parameters == Flatten(base + buffering);
    SetOptionalEntries(traits, attributes);
    FlattenConcat(base + buffering, optional);
    assert attributes.parameters == Flatten(base + buffering + optional);
    attributes.End();
  }

  /** The identifiers of the fixed leading entries. */
  lemma BaseIds(traits: Traits)
    ensures Ids(BaseEntries(traits)) ==
              [WGL_DRAW_TO_WINDOW_ARB, WGL_SUPPORT_OPENGL_ARB, WGL_ACCELERATION_ARB, WGL_PIXEL_TYPE_ARB,
               WGL_COLOR_BITS_ARB, WGL_RED_BITS_ARB, WGL_GREEN_BITS_ARB, WGL_BLUE_BITS_ARB, WGL_DEPTH_BITS_ARB]
  {
  }

  /** The identifiers of the double-buffering entries. */
  lemma BufferingIds(traits: Traits, allowSwapExchangeARB: bool)
    ensures Ids(BufferingEntries(traits, allowSwapExchangeARB)) ==
              (if traits.doubleBuffer then [WGL_DOUBLE_BUFFER_ARB] else [])
              + (if traits.doubleBuffer && (traits.swapMethod != SwapDefault || allowSwapExchangeARB)
                 then [WGL_SWAP_METHOD_ARB] else [])
  {
    if traits.doubleBuffer {
      IdsConcat([Attribute(WGL_DOUBLE_BUFFER_ARB, 1)], SwapEntry(traits.swapMethod, allowSwapExchangeARB));
    }
  }

  /** The identifier list of an entry that appears only when its value is nonzero. */
  function IdIfNonzero(id: int, value: nat): seq<int>
  {
    if value != 0 then [id] else []
  }

  /** The identifiers of the optional entries. */
  lemma OptionalIds(traits: Traits)
    ensures Ids(OptionalEntries(traits)) ==
              IdIfNonzero(WGL_ALPHA_BITS_ARB, traits.alpha)
              + IdIfNonzero(WGL_STENCIL_BITS_ARB, traits.stencil)
              + IdIfNonzero(WGL_SAMPLE_BUFFERS_ARB, traits.sampleBuffers)
              + IdIfNonzero(WGL_SAMPLES_ARB, traits.samples)
              + (if traits.quadBufferStereo then [WGL_STEREO_ARB] else [])
  {
    var a := IfNonzero(WGL_ALPHA_BITS_ARB, traits.alpha);
    var s := IfNonzero(WGL_STENCIL_BITS_ARB, traits.stencil);
    var sb := IfNonzero(WGL_SAMPLE_BUFFERS_ARB, traits.sampleBuffers);
    var n := IfNonzero(WGL_SAMPLES_ARB, traits.samples);
    var st: seq<Attribute> := if traits.quadBufferStereo then [Attribute(WGL_STEREO_ARB, 1)] else [];
    assert Ids(a) == IdIfNonzero(WGL_ALPHA_BITS_ARB, traits.alpha);
    assert Ids(s) == IdIfNonzero(WGL_STENCIL_BITS_ARB, traits.stencil);
    assert Ids(sb) == IdIfNonzero(WGL_SAMPLE_BUFFERS_ARB, traits.sampleBuffers);
    assert Ids(n) == IdIfNonzero(WGL_SAMPLES_ARB, traits.samples);
    assert Ids(st) == if traits.quadBufferStereo then [WGL_STEREO_ARB] else [];
    IdsConcat(a, s);
    IdsConcat(a + s, sb);
    IdsConcat(a + s + sb, n);
    IdsConcat(a + s + sb + n, st);
  }

  /** The identifiers of the whole specification, in order. */
  lemma PixelFormatIds(traits: Traits, allowSwapExchangeARB: bool)
    ensures Ids(PixelFormatEntries(traits, allowSwapExchangeARB)) ==
              Ids(BaseEntries(traits)) + Ids(BufferingEntries(traits, allowSwapExchangeARB)) + Ids(OptionalEntries(traits))
  {
    IdsConcat(BaseEntries(traits), BufferingEntries(traits, allowSwapExchangeARB));
    IdsConcat(BaseEntries(traits) + BufferingEntries(traits, allowSwapExchangeARB), OptionalEntries(traits));
  }

  /** The colour-bits entry a reader finds is the sum of the three channel sizes. */
  lemma ColorBitsIsChannelSum(traits: Traits, allowSwapExchangeARB: bool)
    ensures Find(PixelFormatEntries(traits, allowSwapExchangeARB), WGL_COLOR_BITS_ARB)
            == Some(traits.red + traits.green + traits.blue)
  {
    var entries := PixelFormatEntries(traits, allowSwapExchangeARB);
    PixelFormatIds(traits, allowSwapExchangeARB);
    BaseIds(traits);
    assert Ids(entries)[..4] == [WGL_DRAW_TO_WINDOW_ARB, WGL_SUPPORT_OPENGL_ARB, WGL_ACCELERATION_ARB, WGL_PIXEL_TYPE_ARB];
    FindFirst(entries, WGL_COLOR_BITS_ARB, 4);
  }

  /** A swap-method entry appears exactly for a double-buffered format, and for the default method only when exchange is allowed. */
  lemma SwapMethodPresence(traits: Traits, allowSwapExchangeARB: bool)
    ensures WGL_SWAP_METHOD_ARB in Ids(PixelFormatEntries(traits, allowSwapExchangeARB)) <==>
              traits.doubleBuffer && (traits.swapMethod != SwapDefault || allowSwapExchangeARB)
  {
    PixelFormatIds(traits, allowSwapExchangeARB);
    BaseIds(traits);
    BufferingIds(traits, allowSwapExchangeARB);
    OptionalIds(traits);
  }

  /** An identifier outside the fixed and double-buffering entries appears exactly when the optional entries have it. */
  lemma OptionalIdPresence(traits: Traits, allowSwapExchangeARB: bool, id: int)
    requires id !in Ids(BaseEntries(traits)) && id != WGL_DOUBLE_BUFFER_ARB && id != WGL_SWAP_METHOD_ARB
    ensures id in Ids(PixelFormatEntries(traits, allowSwapExchangeARB)) <==> id in Ids(OptionalEntries(traits))
  {
    PixelFormatIds(traits, allowSwapExchangeARB);
    BufferingIds(traits, allowSwapExchangeARB);
  }

  /** The alpha and stencil entries appear exactly when their sizes are nonzero. */
  lemma AlphaStencilPresence(traits: Traits, allowSwapExchangeARB: bool)
    ensures WGL_ALPHA_BITS_ARB in Ids(PixelFormatEntries(traits, allowSwapExchangeARB)) <==> traits.alpha != 0
    ensures WGL_STENCIL_BITS_ARB in Ids(PixelFormatEntries(traits, allowSwapExchangeARB)) <==> traits.stencil != 0
  {
    BaseIds(traits);
    OptionalIds(traits);
    OptionalIdPresence(traits, allowSwapExchangeARB, WGL_ALPHA_BITS_ARB);
    OptionalIdPresence(traits, allowSwapExchangeARB, WGL_STENCIL_BITS_ARB);
  }

  /** The multisampling entries appear exactly when their counts are nonzero. */
  lemma SamplingPresence(traits: Traits, allowSwapExchangeARB: bool)
    ensures WGL_SAMPLE_BUFFERS_ARB in Ids(PixelFormatEntries(traits, allowSwapExchangeARB)) <==> traits.sampleBuffers != 0
    ensures WGL_SAMPLES_ARB in Ids(PixelFormatEntries(traits, allowSwapExchangeARB)) <==> traits.samples != 0
  {
    BaseIds(traits);
    OptionalIds(traits);
    OptionalIdPresence(traits, allowSwapExchangeARB, WGL_SAMPLE_BUFFERS_ARB);
    OptionalIdPresence(traits, allowSwapExchangeARB, WGL_SAMPLES_ARB);
  }

  /** The stereo entry appears exactly for quad-buffered stereo. */
  lemma StereoPresence(traits: Traits, allowSwapExchangeARB: bool)
    ensures WGL_STEREO_ARB in Ids(PixelFormatEntries(traits, allowSwapExchangeARB)) <==> traits.quadBufferStereo
  {
    BaseIds(traits);
    OptionalIds(traits);
    OptionalIdPresence(traits, allowSwapExchangeARB, WGL_STEREO_ARB);
  }

  // ---------------------------------------------------------------------------
  // setPixelFormat: the order in which specifications are tried
  // ---------------------------------------------------------------------------

  /** What `setPixelFormat` settles on: the pixel-format index, if any, and the traits as the search left them. */
  datatype Choice = Choice(index: Option<int>, traits: Traits)

  /** The traits of the retry on a screen of fewer than 32 bits: each channel cut to a quarter of the depth. */
  function ReducedTraits(traits: Traits, screenDepth: nat): Traits
  {
    traits.(red := screenDepth / 4, green := screenDepth / 4, blue := screenDepth / 4)
  }

  /**
    The pixel-format search of `setPixelFormat`. `choose` stands for the
    driver's answer to a specification (negative when nothing matches) and
    `screenDepth` for the screen's colour depth. First the traits as given
    with swap exchange allowed; then, on a screen of fewer than 32 bits, the
    same with each channel cut to a quarter of the depth, a change the traits
    keep; then the traits of the last attempt without the default swap
    exchange.
  */
  function ChoosePixelFormat(traits: Traits, screenDepth: nat, choose: seq<int> -> int): (r: Choice)
    ensures r.index.Some? ==> r.index.value >= 0
    ensures choose(Terminated(PixelFormatEntries(traits, true))) >= 0 ==>
              r == Choice(Some(choose(Terminated(PixelFormatEntries(traits, true)))), traits)
    ensures r.index.None? ==> choose(Terminated(PixelFormatEntries(traits, true))) < 0
    ensures screenDepth >= 32 && choose(Terminated(PixelFormatEntries(traits, true))) < 0 ==>
              && r.traits == traits
              && r.index == (if choose(Terminated(PixelFormatEntries(traits, false))) >= 0
                             then Some(choose(Terminated(PixelFormatEntries(traits, false)))) else None)
    ensures screenDepth < 32 && choose(Terminated(PixelFormatEntries(traits, true))) < 0 ==>
              var reduced := ReducedTraits(traits, screenDepth);
              && r.traits == reduced
              && r.index == (if choose(Terminated(PixelFormatEntries(reduced, true))) >= 0
                             then Some(choose(Terminated(PixelFormatEntries(reduced, true))))
                             else if choose(Terminated(PixelFormatEntries(reduced, false))) >= 0
                             then Some(choose(Terminated(PixelFormatEntries(reduced, false)))) else None)
  {
    var first := choose(Terminated(PixelFormatEntries(traits, true)));
    var traits1 := if first < 0 && screenDepth < 32 then ReducedTraits(traits, screenDepth) else traits;
    var second :=
      if first < 0 && screenDepth < 32 then choose(Terminated(PixelFormatEntries(traits1, true))) else first;
    if second >= 0 then Choice(Some(second), traits1)
    else
      var third := choose(Terminated(PixelFormatEntries(traits1, false)));
      if third >= 0 then Choice(Some(third), traits1) else Choice(None, traits1)
  }

  /** The retry on a shallow screen asks for at most as many colour bits as the screen has. */
  lemma ReducedColorBitsFitScreen(traits: Traits, screenDepth: nat, allowSwapExchangeARB: bool)
    requires screenDepth < 32
    ensures Find(PixelFormatEntries(ReducedTraits(traits, screenDepth), allowSwapExchangeARB), WGL_COLOR_BITS_ARB)
            == Some(3 * (screenDepth / 4))
    ensures 3 * (screenDepth / 4) <= screenDepth
  {
    ColorBitsIsChannelSum(ReducedTraits(traits, screenDepth), allowSwapExchangeARB);
  }

  // ---------------------------------------------------------------------------
  // The OpenGL 3 context attribute array
  // ---------------------------------------------------------------------------

  /** The context entries: version always, flags and profile only when nonzero. A failed version query leaves version 1.0. */
  function ContextEntries(version: Option<(nat, nat)>, flags: nat, profileMask: nat): (r: seq<Attribute>)
    ensures 2 <= |r| <= 4
    ensures NoZeroIds(r)
  {
    var (major, minor) := if version.Some? then version.value else (1, 0);
    [Attribute(WGL_CONTEXT_MAJOR_VERSION_ARB, major), Attribute(WGL_CONTEXT_MINOR_VERSION_ARB, minor)]
    + (if flags != 0 then [Attribute(WGL_CONTEXT_FLAGS_ARB, flags)] else [])
    + (if profileMask != 0 then [Attribute(WGL_CONTEXT_PROFILE_MASK_ARB, profileMask)] else [])
  }

  /** `attribs[idx++] = value`: store into the next free slot and advance. */
  method Push(attribs: array<int>, idx: nat, value: int) returns (next: nat)
    requires idx < attribs.Length
    modifies attribs
    ensures next == idx + 1
    ensures attribs[..next] == old(attribs[..idx]) + [value]
  {
    attribs[idx] := value;
    next := idx + 1;
    assert attribs[..next] == attribs[..idx] + [value];
  }

  /** Two `attribs[idx++]` stores: an entry's identifier, then its value. */
  method PushEntry(attribs: array<int>, idx: nat, ghost entries: seq<Attribute>, a: Attribute) returns (next: nat)
    requires idx + 2 <= attribs.Length
    requires attribs[..idx] == Flatten(entries)
    modifies attribs
    ensures next == idx + 2
    ensures attribs[..next] == Flatten(entries + [a])
  {
    next := Push(attribs, idx, a.id);
    next := Push(attribs, next, a.value);
    FlattenSnoc(entries, a);
  }

  /**
    The `attribs[idx++]` fill of `createContextImplementation`: a 16-slot
    array filled from the front, and the number of slots used. The used
    prefix is the terminated context list, which always fits.
  */
  method ContextAttributes(version: Option<(nat, nat)>, flags: nat, profileMask: nat)
    returns (attribs: array<int>, count: nat)
    ensures fresh(attribs) && attribs.Length == CONTEXT_ATTRIBS_SLOTS
    ensures 5 <= count <= 9 && count <= attribs.Length
    ensures attribs[..count] == Terminated(ContextEntries(version, flags, profileMask))
    ensures attribs[count - 1] == 0
  {
    attribs := new int[CONTEXT_ATTRIBS_SLOTS];
    var major: nat, minor: nat := 1, 0;
    if version.Some? {
      major, minor := version.value.0, version.value.1;
    }
    var idx := 0;
    ghost var entries: seq<Attribute> := [];
    idx := PushEntry(attribs, idx, entries, Attribute(WGL_CONTEXT_MAJOR_VERSION_ARB, major));
    entries := entries + [Attribute(WGL_CONTEXT_MAJOR_VERSION_ARB, major)];
    idx := PushEntry(attribs, idx, entries, Attribute(WGL_CONTEXT_MINOR_VERSION_ARB, minor));
    entries := entries + [Attribute(WGL_CONTEXT_MINOR_VERSION_ARB, minor)];
    if flags != 0 {
      idx := PushEntry(attribs, idx, entries, Attribute(WGL_CONTEXT_FLAGS_ARB, flags));
      entries := entries + [Attribute(WGL_CONTEXT_FLAGS_ARB, flags)];
    }
    if profileMask != 0 {
      idx := PushEntry(attribs, idx, entries, Attribute(WGL_CONTEXT_PROFILE_MASK_ARB, profileMask));
      entries := entries + [Attribute(WGL_CONTEXT_PROFILE_MASK_ARB, profileMask)];
    }
    idx := Push(attribs, idx, 0);
    assert entries == ContextEntries(version, flags, profileMask);
    count := idx;
  }

  /** The identifiers of the context list. */
  lemma ContextIds(version: Option<(nat, nat)>, flags: nat, profileMask: nat)
    ensures Ids(ContextEntries(version, flags, profileMask)) ==
              [WGL_CONTEXT_MAJOR_VERSION_ARB, WGL_CONTEXT_MINOR_VERSION_ARB]
              + (if flags != 0 then [WGL_CONTEXT_FLAGS_ARB] else [])
              + (if profileMask != 0 then [WGL_CONTEXT_PROFILE_MASK_ARB] else [])
  {
    var (major, minor) := if version.Some? then version.value else (1, 0);
    var v := [Attribute(WGL_CONTEXT_MAJOR_VERSION_ARB, major), Attribute(WGL_CONTEXT_MINOR_VERSION_ARB, minor)];
    var f: seq<Attribute> := if flags != 0 then [Attribute(WGL_CONTEXT_FLAGS_ARB, flags)] else [];
    var p: seq<Attribute> := if profileMask != 0 then [Attribute(WGL_CONTEXT_PROFILE_MASK_ARB, profileMask)] else [];
    IdsConcat(v, f);
    IdsConcat(v + f, p);
  }

  /** The context list reads back whole: the version (1.0 when the query failed), then flags and profile exactly when nonzero. */
  lemma ContextListDecodes(version: Option<(nat, nat)>, flags: nat, profileMask: nat)
    ensures var entries := ContextEntries(version, flags, profileMask);
            Decode(Terminated(entries)) == Some(entries)
            && Find(entries, WGL_CONTEXT_MAJOR_VERSION_ARB) == Some(if version.Some? then version.value.0 else 1)
            && Find(entries, WGL_CONTEXT_MINOR_VERSION_ARB) == Some(if version.Some? then version.value.1 else 0)
            && (WGL_CONTEXT_FLAGS_ARB in Ids(entries) <==> flags != 0)
            && (WGL_CONTEXT_PROFILE_MASK_ARB in Ids(entries) <==> profileMask != 0)
  {
    var entries := ContextEntries(version, flags, profileMask);
    DecodeTerminated(entries);
    ContextIds(version, flags, profileMask);
    assert Ids(entries)[..1] == [WGL_CONTEXT_MAJOR_VERSION_ARB];
    FindFirst(entries, WGL_CONTEXT_MINOR_VERSION_ARB, 1);
  }

  /** A reader finds the context flags and the profile mask exactly when they are nonzero, with their values. */
  lemma ContextOptionalValues(version: Option<(nat, nat)>, flags: nat, profileMask: nat)
    ensures Find(ContextEntries(version, flags, profileMask), WGL_CONTEXT_FLAGS_ARB)
            == (if flags != 0 then Some(flags) else None)
    ensures Find(ContextEntries(version, flags, profileMask), WGL_CONTEXT_PROFILE_MASK_ARB)
            == (if profileMask != 0 then Some(profileMask) else None)
  {
    var entries := ContextEntries(version, flags, profileMask);
    ContextIds(version, flags, profileMask);
    var n := |entries|;
    if flags != 0 {
      assert WGL_CONTEXT_FLAGS_ARB !in Ids(entries)[..2];
      FindFirst(entries, WGL_CONTEXT_FLAGS_ARB, 2);
    } else {
      assert WGL_CONTEXT_FLAGS_ARB !in Ids(entries)[..n];
      FindFirst(entries, WGL_CONTEXT_FLAGS_ARB, n);
    }
    if profileMask != 0 {
      assert WGL_CONTEXT_PROFILE_MASK_ARB !in Ids(entries)[..n - 1];
      FindFirst(entries, WGL_CONTEXT_PROFILE_MASK_ARB, n - 1);
    } else {
      assert WGL_CONTEXT_PROFILE_MASK_ARB !in Ids(entries)[..n];
      FindFirst(entries, WGL_CONTEXT_PROFILE_MASK_ARB, n);
    }
  }
}
