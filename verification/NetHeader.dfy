/** The header in front of every packet. */
module NetHeader {
  import opened Wrap

  const NET_HDR_SIZE: u32 := 10

  datatype VirtioNetHdr = VirtioNetHdr(
    flags: u8, gsoType: u8, hdrLen: u16, gsoSize: u16, csumStart: u16, csumOffset: u16)

  const DEFAULT_HDR := VirtioNetHdr(0, 0, 0, 0, 0, 0)

  function Low8(x: u16): u8 { x % 0x100 }

  function High8(x: u16): u8 { x / 0x100 }

  /** A little-endian word. */
  function Word(s: seq<u8>, at: nat): u16
    requires at + 1 < |s|
  {
    var low: int, high: int := s[at], s[at + 1];
    low + 0x100 * high
  }

  /** The header that the first bytes of a buffer stand for. */
  function Decode(s: seq<u8>): VirtioNetHdr
    requires NET_HDR_SIZE <= |s|
  {
    VirtioNetHdr(s[0], s[1], Word(s, 2), Word(s, 4), Word(s, 6), Word(s, 8))
  }

  /** The header is exactly the first bytes: no byte of them is without meaning, and no other has one. */
  lemma HeaderIsPrefix(s: seq<u8>, t: seq<u8>)
    requires NET_HDR_SIZE <= |s| && NET_HDR_SIZE <= |t|
    ensures Decode(s) == Decode(t) <==> s[..NET_HDR_SIZE] == t[..NET_HDR_SIZE]
  {
    if Decode(s) == Decode(t) {
      WordBytes(s, t, 2);
      WordBytes(s, t, 4);
      WordBytes(s, t, 6);
      WordBytes(s, t, 8);
    } else if s[..NET_HDR_SIZE] == t[..NET_HDR_SIZE] {
      assert forall i :: 0 <= i < NET_HDR_SIZE ==> s[i] == s[..NET_HDR_SIZE][i] == t[i];
    }
  }

  lemma WordBytes(s: seq<u8>, t: seq<u8>, at: nat)
    requires at + 1 < |s| && at + 1 < |t| && Word(s, at) == Word(t, at)
    ensures s[at] == t[at] && s[at + 1] == t[at + 1]
  {
  }

  /** The default header is ten zero bytes. */
  lemma ZeroHeader(s: seq<u8>)
    requires NET_HDR_SIZE <= |s|
    ensures Decode(s) == DEFAULT_HDR <==> forall i :: 0 <= i < 10 ==> s[i] == 0
  {
    var zero: seq<u8> := seq(NET_HDR_SIZE, _ => 0);
    HeaderIsPrefix(s, zero);
    assert zero[..NET_HDR_SIZE] == zero;
    assert forall i :: 0 <= i < NET_HDR_SIZE ==> s[i] == s[..NET_HDR_SIZE][i];
  }

  /** Writes a header at the start of a buffer. */
  method WriteTo(h: VirtioNetHdr, target: array<u8>)
    requires NET_HDR_SIZE <= target.Length
    modifies target
    ensures Decode(target[..]) == h && target[NET_HDR_SIZE..] == old(target[NET_HDR_SIZE..])
  {
    target[0] := h.flags;
    target[1] := h.gsoType;
    target[2], target[3] := Low8(h.hdrLen), High8(h.hdrLen);
    target[4], target[5] := Low8(h.gsoSize), High8(h.gsoSize);
    target[6], target[7] := Low8(h.csumStart), High8(h.csumStart);
    target[8], target[9] := Low8(h.csumOffset), High8(h.csumOffset);
  }

  /** Whether a buffer starts with a header. */
  method Equal(h: VirtioNetHdr, target: array<u8>) returns (r: bool)
    requires NET_HDR_SIZE <= target.Length
    ensures r <==> Decode(target[..]) == h
  {
    r := true;
    r := r && target[0] == h.flags;
    r := r && target[1] == h.gsoType;
    r := r && target[2] == Low8(h.hdrLen);
    r := r && target[3] == High8(h.hdrLen);
    r := r && target[4] == Low8(h.gsoSize);
    r := r && target[5] == High8(h.gsoSize);
    r := r && target[6] == Low8(h.csumStart);
    r := r && target[7] == High8(h.csumStart);
    r := r && target[8] == Low8(h.csumOffset);
    r := r && target[9] == High8(h.csumOffset);
  }
}
