/** Little-endian fields laid end to end: the vocabulary shared by the three packet formats. */
module WireFields {
  import opened Words

  type Bytes = seq<byte>

  function Pow256(w: nat): (p: nat)
    ensures p > 0
  {
    if w == 0 then 1 else 256 * Pow256(w - 1)
  }

  function ToLittleEndian(w: nat, v: nat): (b: Bytes)
    ensures |b| == w
  {
    if w == 0 then [] else [v % 256] + ToLittleEndian(w - 1, v / 256)
  }

  function FromLittleEndian(b: Bytes): nat {
    if b == [] then 0 else b[0] + 256 * FromLittleEndian(b[1..])
  }

  /** The unsigned value stored in b[off..off + w]. */
  function Field(b: Bytes, off: nat, w: nat): nat
    requires off + w <= |b|
  {
    FromLittleEndian(b[off..off + w])
  }

  lemma {:induction false} LittleEndianRoundTrip(w: nat, v: nat)
    requires v < Pow256(w)
    ensures FromLittleEndian(ToLittleEndian(w, v)) == v
  {
    if w > 0 {
      LittleEndianRoundTrip(w - 1, v / 256);
      assert ToLittleEndian(w, v)[1..] == ToLittleEndian(w - 1, v / 256);
    }
  }

  lemma {:induction false} LittleEndianInverse(b: Bytes)
    ensures FromLittleEndian(b) < Pow256(|b|)
    ensures ToLittleEndian(|b|, FromLittleEndian(b)) == b
  {
    if b != [] {
      LittleEndianInverse(b[1..]);
    }
  }

  lemma ByteField(b: Bytes, off: nat)
    requires off < |b|
    ensures Field(b, off, 1) == b[off]
  {
    assert b[off..off + 1] == [b[off]];
    assert FromLittleEndian([b[off]]) == b[off] + 256 * FromLittleEndian([b[off]][1..]);
  }

  /** A run of little-endian fields: byte width and value, in wire order. */
  datatype Fields = End | Uint(width: nat, value: nat, more: Fields)

  function Size(f: Fields): nat {
    match f
    case End => 0
    case Uint(w, _, more) => w + Size(more)
  }

  predicate Fits(f: Fields) {
    f.End? || (f.value < Pow256(f.width) && Fits(f.more))
  }

  function Emit(f: Fields): (b: Bytes)
    ensures |b| == Size(f)
  {
    match f
    case End => []
    case Uint(w, v, more) => ToLittleEndian(w, v) + Emit(more)
  }

  /** The fields stand in b from position base on. */
  predicate Reads(b: Bytes, base: nat, f: Fields)
    decreases f
  {
    match f
    case End => base <= |b|
    case Uint(w, v, more) => base + w <= |b| && Field(b, base, w) == v && Reads(b, base + w, more)
  }

  /** Emitted fields are read back, wherever the emitted bytes stand. */
  lemma {:induction false} EmittedReads(before: Bytes, f: Fields, after: Bytes)
    requires Fits(f)
    ensures Reads(before + Emit(f) + after, |before|, f)
    decreases f
  {
    if f.Uint? {
      var head := ToLittleEndian(f.width, f.value);
      var b := before + Emit(f) + after;
      EmittedReads(before + head, f.more, after);
      assert (before + head) + Emit(f.more) + after == b;
      assert b[|before|..|before| + f.width] == head;
      LittleEndianRoundTrip(f.width, f.value);
    }
  }

  /** Emitting the fields that were read gives back the bytes they were read from. */
  lemma {:induction false} ReadsEmit(b: Bytes, base: nat, f: Fields)
    requires Reads(b, base, f)
    ensures base + Size(f) <= |b|
    ensures Emit(f) == b[base..base + Size(f)]
    decreases f
  {
    if f.Uint? {
      var next := base + f.width;
      ReadsEmit(b, next, f.more);
      LittleEndianInverse(b[base..next]);
      assert b[base..next] + b[next..next + Size(f.more)] == b[base..base + Size(f)];
    }
  }
}
