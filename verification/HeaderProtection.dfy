/** QUIC header protection (section 5.4.1 of RFC 9001), masked in place by a loop that
    visits every byte of the region it is given. */
module HeaderProtection {
  import opened Basics

  /** Five bytes: one for the first header byte, four for the packet number. */
  type Mask = m: seq<Byte> | |m| == 5 witness [0, 0, 0, 0, 0]

  /** Long headers expose four bits of the first byte to the mask, short ones five. */
  function MaskedBits(first: Byte): Byte {
    if first & 0x80 == 0x80 then 0x0f else 0x1f
  }

  function PnLength(first: Byte): (n: nat)
    ensures 1 <= n <= 4
  {
    (first & 0x03) as int + 1
  }

  function MaskFirst(mask: Mask, first: Byte): Byte {
    first ^ (mask[0] & MaskedBits(first))
  }

  // ---------------------------------------------------------------- as the standard has it

  /** XOR of a field with as many mask bytes. */
  function XorField(field: seq<Byte>, mask: Mask): (r: seq<Byte>)
    requires |field| <= 4
    ensures |r| == |field|
  {
    seq(|field|, i requires 0 <= i < |field| => field[i] ^ mask[1 + i])
  }

  function Least(a: nat, b: nat): nat { if a <= b then a else b }

  /** Touches only the first `n` bytes of the region. */
  function MaskPrefix(region: seq<Byte>, mask: Mask, n: nat): seq<Byte>
    requires |region| <= 4
  {
    var k := Least(n, |region|);
    XorField(region[..k], mask) + region[k..]
  }

  // ---------------------------------------------------------------- as the loop does it

  /** `xor_in_place`; `masked` says whether the first byte must be unmasked before its
      length bits are read. */
  function Applied(mask: Mask, first: Byte, region: seq<Byte>, masked: bool): (Byte, seq<Byte>)
    requires |region| <= 4
  {
    var plain := if masked then MaskFirst(mask, first) else first;
    (MaskFirst(mask, first), MaskPrefix(region, mask, PnLength(plain)))
  }

  /** What section 5.4.1 of RFC 9001 asks of the first byte: a long header has its low
      four bits masked, a short one its low five, and the others stay. */
  predicate FirstMasked(first: Byte, m: Byte, r: Byte) {
    if first & 0x80 == 0x80
    then r & 0xf0 == first & 0xf0 && r & 0x0f == (first ^ m) & 0x0f
    else r & 0xe0 == first & 0xe0 && r & 0x1f == (first ^ m) & 0x1f
  }

  lemma FirstIsMasked(mask: Mask, first: Byte)
    ensures FirstMasked(first, mask[0], MaskFirst(mask, first))
  {
    LongMasked(first, mask[0]);
    ShortMasked(first, mask[0]);
  }

  lemma LongMasked(first: Byte, m: Byte)
    ensures (first ^ (m & 0x0f)) & 0xf0 == first & 0xf0
    ensures (first ^ (m & 0x0f)) & 0x0f == (first ^ m) & 0x0f
  {}

  lemma ShortMasked(first: Byte, m: Byte)
    ensures (first ^ (m & 0x1f)) & 0xe0 == first & 0xe0
    ensures (first ^ (m & 0x1f)) & 0x1f == (first ^ m) & 0x1f
  {}

  /** The first byte, and the packet-number length its unmasked bits tell. */
  method MaskFirstByte(mask: Mask, first: Byte, masked: bool) returns (newFirst: Byte, pnLen: nat)
    ensures newFirst == MaskFirst(mask, first)
    ensures FirstMasked(first, mask[0], newFirst)
    ensures var plain := if masked then newFirst else first;
            pnLen == PnLength(plain) && pnLen == 1 + (plain & 0x03) as int
  {
    FirstIsMasked(mask, first);
    var bits: Byte := 0x1f;
    if first & 0x80 == 0x80 {
      bits := 0x0f;
    }
    var plain := first;
    if masked {
      plain := first ^ (mask[0] & bits);
    }
    pnLen := (plain & 0x03) as int + 1;
    newFirst := first ^ (mask[0] & bits);
  }

  method XorInPlace(mask: Mask, first: Byte, region: array<Byte>, masked: bool)
    returns (ok: bool, newFirst: Byte)
    modifies region
    ensures ok <==> region.Length <= 4
    ensures !ok ==> newFirst == first && region[..] == old(region[..])
    ensures ok ==> (newFirst, region[..]) == Applied(mask, first, old(region[..]), masked)
    ensures ok ==> FirstMasked(first, mask[0], newFirst)
    ensures ok ==> forall i :: 0 <= i < region.Length ==>
              region[i] == if i <= ((if masked then newFirst else first) & 0x03) as int
                           then old(region[i]) ^ mask[1 + i] else old(region[i])
  {
    if region.Length > 4 {
      return false, first;
    }
    var pnLen;
    newFirst, pnLen := MaskFirstByte(mask, first, masked);
    XorRegion(mask, region, pnLen);
    ProtectedIsRfc9001(mask, first, old(region[..]), masked);
    ok := true;
  }

  /** Every byte is visited; those at and past the length are XORed with zero. */
  method XorRegion(mask: Mask, region: array<Byte>, pnLen: nat)
    requires region.Length <= 4
    modifies region
    ensures region[..] == MaskPrefix(old(region[..]), mask, pnLen)
  {
    var i := 0;
    while i < region.Length
      invariant 0 <= i <= region.Length
      invariant forall k :: 0 <= k < i ==> region[k] == MaskByte(old(region[k]), mask, pnLen, k)
      invariant forall k :: i <= k < region.Length ==> region[k] == old(region[k])
    {
      var m: Byte := if i < pnLen then mask[1 + i] else 0;
      XorZero(region[i]);
      region[i] := region[i] ^ m;
      i := i + 1;
    }
    ghost var was := old(region[..]);
    forall k | 0 <= k < region.Length
      ensures |MaskPrefix(was, mask, pnLen)| == |was| && region[k] == MaskPrefix(was, mask, pnLen)[k]
    {
      MaskPrefixAt(was, mask, pnLen, k);
    }
    if region.Length == 0 {
      assert was == [] && region[..] == [];
    }
  }

  function MaskByte(b: Byte, mask: Mask, n: nat, i: nat): Byte
    requires i < 4
  {
    if i < n then b ^ mask[1 + i] else b
  }

  lemma XorFieldAt(field: seq<Byte>, mask: Mask, i: nat)
    requires |field| <= 4 && i < |field|
    ensures XorField(field, mask)[i] == field[i] ^ mask[1 + i]
  {}

  lemma MaskPrefixAt(region: seq<Byte>, mask: Mask, n: nat, i: nat)
    requires |region| <= 4 && i < |region|
    ensures |MaskPrefix(region, mask, n)| == |region|
    ensures MaskPrefix(region, mask, n)[i] == MaskByte(region[i], mask, n, i)
  {
    hide XorField;
    var k := Least(n, |region|);
    if i < k {
      XorFieldAt(region[..k], mask, i);
    }
  }

  lemma XorZero(b: Byte)
    ensures b ^ 0 == b
  {}

  // ---------------------------------------------------------------- round trip

  /** The form bit is never masked, and masking the first byte twice restores it. */
  lemma FirstRoundTrip(mask: Mask, first: Byte)
    ensures MaskedBits(MaskFirst(mask, first)) == MaskedBits(first)
    ensures MaskFirst(mask, MaskFirst(mask, first)) == first
  {
    FormBitKept(first, mask[0]);
    var bits := MaskedBits(first);
    XorTwice(first, mask[0] & bits);
  }

  lemma FormBitKept(first: Byte, m: Byte)
    ensures (first ^ (m & 0x0f)) & 0x80 == first & 0x80
    ensures (first ^ (m & 0x1f)) & 0x80 == first & 0x80
  {}

  lemma XorTwice(a: Byte, b: Byte)
    ensures (a ^ b) ^ b == a
  {}

  lemma FieldRoundTrip(field: seq<Byte>, mask: Mask)
    requires |field| <= 4
    ensures XorField(XorField(field, mask), mask) == field
  {
    var twice := XorField(XorField(field, mask), mask);
    forall i | 0 <= i < |field| ensures twice[i] == field[i] {
      XorTwice(field[i], mask[1 + i]);
    }
  }

  /** For every mask, first byte and packet number of the encoded length: the receiver,
      who is handed the whole four-byte region, restores the header and leaves the
      payload bytes behind the packet number alone. */
  lemma RoundTrip(mask: Mask, first: Byte, pn: seq<Byte>, payload: seq<Byte>)
    requires |pn| == PnLength(first) && |pn| + |payload| == 4
    ensures var (sentFirst, sentPn) := Applied(mask, first, pn, false);
            && |sentPn| == |pn|
            && Applied(mask, sentFirst, sentPn + payload, true) == (first, pn + payload)
  {
    var (sentFirst, sentPn) := Applied(mask, first, pn, false);
    FirstRoundTrip(mask, first);
    FieldRoundTrip(pn, mask);
    assert pn[..|pn|] == pn && pn[|pn|..] == [];
    assert sentPn == XorField(pn, mask);
    var region := sentPn + payload;
    assert region[..|pn|] == sentPn && region[|pn|..] == payload;
  }

  /** What is protected is exactly what the standard says, on sending and on receiving:
      the low bits of the first byte, and as many bytes of the packet number as the
      unmasked first byte tells.  The region may be empty. */
  lemma ProtectedIsRfc9001(mask: Mask, first: Byte, region: seq<Byte>, masked: bool)
    requires |region| <= 4
    ensures var (f, r) := Applied(mask, first, region, masked);
            var plain := if masked then f else first;
            && FirstMasked(first, mask[0], f) && |r| == |region|
            && forall i :: 0 <= i < |region| ==>
                 r[i] == (if i <= (plain & 0x03) as int then region[i] ^ mask[1 + i] else region[i])
  {
    hide MaskFirst, MaskPrefix;
    FirstIsMasked(mask, first);
    var (f, r) := Applied(mask, first, region, masked);
    var plain := if masked then f else first;
    assert r == MaskPrefix(region, mask, PnLength(plain));
    MaskPrefixLength(region, mask, PnLength(plain));
    forall i | 0 <= i < |region|
      ensures r[i] == if i <= (plain & 0x03) as int then region[i] ^ mask[1 + i] else region[i]
    {
      MaskPrefixAt(region, mask, PnLength(plain), i);
    }
  }

  lemma MaskPrefixLength(region: seq<Byte>, mask: Mask, n: nat)
    requires |region| <= 4
    ensures |MaskPrefix(region, mask, n)| == |region|
  {}
}
