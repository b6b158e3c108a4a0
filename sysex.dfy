/**
 * The vendor SysEx envelope around an OSC-style text payload, and byte-slice
 * concatenation (xr12/sysex.go).
 */
module Sysex {
  import opened Wrappers
  import opened Bytes

  /** Start of exclusive, the manufacturer ID 00 20 32 and the device byte 0x32. */
  const Prefix: seq<Byte> := [0xF0, 0x00, 0x20, 0x32, 0x32]

  /** End of exclusive. */
  const Suffix: seq<Byte> := [0xF7]

  /** A well-formed envelope: the prefix, any payload, then the end-of-exclusive byte. */
  predicate IsEnvelope(w: seq<Byte>)
  {
    |w| >= |Prefix| + |Suffix| && w[..|Prefix|] == Prefix && w[|w| - 1] == 0xF7
  }

  /**
   * Wraps a payload for a SysEx write. The prefix and suffix are values, so wrapping
   * cannot alter them.
   */
  function Wrap(payload: seq<Byte>): (w: seq<Byte>)
    ensures |w| == |payload| + 6
    ensures w[..5] == [0xF0, 0x00, 0x20, 0x32, 0x32]
    ensures w[|w| - 1] == 0xF7
    ensures w[5..|w| - 1] == payload
    ensures IsEnvelope(w)
  {
    Prefix + payload + Suffix
  }

  /** The inverse of Wrap: the payload of a well-formed envelope, nothing otherwise. */
  function Unwrap(w: seq<Byte>): (payload: Option<seq<Byte>>)
    ensures payload.Some? <==> IsEnvelope(w)
    ensures payload.Some? ==> |payload.value| == |w| - 6
  {
    if IsEnvelope(w) then Some(w[5..|w| - 1]) else None
  }

  /** Stripping the envelope gives back exactly the wrapped payload. */
  lemma UnwrapWrap(payload: seq<Byte>)
    ensures Unwrap(Wrap(payload)) == Some(payload)
  {
  }

  /** Every well-formed envelope is the wrapping of its own payload. */
  lemma WrapUnwrap(w: seq<Byte>)
    requires Unwrap(w).Some?
    ensures Wrap(Unwrap(w).value) == w
  {
  }

  /** Distinct payloads give distinct envelopes. */
  lemma WrapInjective(p: seq<Byte>, q: seq<Byte>)
    requires Wrap(p) == Wrap(q)
    ensures p == q
  {
    UnwrapWrap(p);
    UnwrapWrap(q);
  }

  /** The in-order concatenation of a list of slices. */
  function Flatten(slices: seq<seq<Byte>>): seq<Byte>
  {
    if slices == [] then [] else Flatten(slices[..|slices| - 1]) + slices[|slices| - 1]
  }

  /** The sum of the lengths of a list of slices. */
  function TotalLength(slices: seq<seq<Byte>>): nat
  {
    if slices == [] then 0 else TotalLength(slices[..|slices| - 1]) + |slices[|slices| - 1]|
  }

  lemma {:induction false} FlattenLength(slices: seq<seq<Byte>>)
    ensures |Flatten(slices)| == TotalLength(slices)
  {
    if slices != [] {
      FlattenLength(slices[..|slices| - 1]);
    }
  }

  /** Concatenating two lists of slices concatenates their flattenings. */
  lemma {:induction false} FlattenAppend(xs: seq<seq<Byte>>, ys: seq<seq<Byte>>)
    ensures Flatten(xs + ys) == Flatten(xs) + Flatten(ys)
  {
    if ys == [] {
      assert xs + ys == xs;
    } else {
      var init := ys[..|ys| - 1];
      assert (xs + ys)[..|xs + ys| - 1] == xs + init;
      FlattenAppend(xs, init);
    }
  }

  /** Slice `k` sits in the flattening right after the slices before it. */
  lemma FlattenPlacesSlice(slices: seq<seq<Byte>>, k: nat)
    requires k < |slices|
    ensures var start := TotalLength(slices[..k]);
      start + |slices[k]| <= |Flatten(slices)| &&
      Flatten(slices)[start..start + |slices[k]|] == slices[k]
  {
    var before, after := slices[..k], slices[k + 1..];
    assert slices == before + [slices[k]] + after;
    FlattenAppend(before + [slices[k]], after);
    FlattenAppend(before, [slices[k]]);
    assert [] + [slices[k]] == [slices[k]];
    assert Flatten([slices[k]]) == slices[k] by {
      assert [slices[k]][..0] == [];
    }
    FlattenLength(before);
  }

  /** Appends every slice, in order, to an initially empty accumulator. */
  method ConcatAppend(slices: seq<seq<Byte>>) returns (tmp: seq<Byte>)
    ensures tmp == Flatten(slices)
    ensures |tmp| == TotalLength(slices)
    ensures slices == [] ==> tmp == []
  {
    tmp := [];
    for i := 0 to |slices|
      invariant tmp == Flatten(slices[..i])
    {
      assert slices[..i + 1][..i] == slices[..i];
      tmp := tmp + slices[i];
    }
    assert slices[..|slices|] == slices;
    FlattenLength(slices);
  }
}
