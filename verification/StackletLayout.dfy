/** Where the stub of a stacklet lies, and how `stubRoutine` finds it again from the stack pointer,
    on 64-bit machine words. The stacklet has 81920 bytes and is aligned to 128; the stub has 64 (nine
    fields: five pointers, two ints, two pointers), so `stackletFork` puts it at buf + 81920 - 64. */
module StackletLayout {

  type Address = bv64

  /** `stubRoutine`: back from the stub to the buffer, with 64 bytes of slack, masked with -1 << 7. */
  function RecoveredBuf(sp: Address): Address {
    (sp + 64 + (64 - 81920)) & 0xFFFF_FFFF_FFFF_FF80
  }

  function StubOf(buf: Address): Address {
    buf + 81920 - 64
  }

  function RecoveredStub(sp: Address): Address {
    StubOf(RecoveredBuf(sp))
  }

  /** As a signed number of bytes, `d` is in [-64, 64). */
  predicate Near(d: Address) {
    d < 64 || 0xFFFF_FFFF_FFFF_FFC0 <= d
  }

  lemma Window(d: Address)
    ensures d + 64 < 128 <==> Near(d)
  {
  }

  lemma WindowAt(d: Address, z: Address)
    requires z == d + 64
    ensures z < 128 <==> Near(d)
  {
    Window(d);
  }

  /** Masking an address gives the aligned buffer exactly within the first 128 bytes from it. */
  lemma MaskKeepsBlock(buf: Address, z: Address)
    requires buf & 127 == 0
    ensures (buf + z) & 0xFFFF_FFFF_FFFF_FF80 == buf <==> z < 128
  {
  }

  /** `sp` lies `d` bytes from the stub, and the address that is masked `z` bytes from the buffer. */
  predicate Apart(stub: Address, sp: Address, d: Address) {
    d == sp - stub
  }

  predicate Offset(buf: Address, sp: Address, d: Address, z: Address) {
    sp + 64 + (64 - 81920) == buf + z && z == d + 64
  }

  lemma HasOffset(buf: Address, stub: Address, sp: Address)
    requires stub == buf + 81920 - 64
    ensures exists d, z :: Apart(stub, sp, d) && Offset(buf, sp, d, z)
  {
    assert Apart(stub, sp, sp - stub) && Offset(buf, sp, sp - stub, sp - stub + 64);
  }

  lemma Recovered(buf: Address, z: Address, sp: Address)
    requires sp + 64 + (64 - 81920) == buf + z
    ensures RecoveredBuf(sp) == (buf + z) & 0xFFFF_FFFF_FFFF_FF80
  {
  }

  lemma MaskedIs(buf: Address, z: Address, masked: Address)
    requires buf & 127 == 0 && masked == (buf + z) & 0xFFFF_FFFF_FFFF_FF80
    ensures masked == buf <==> z < 128
  {
    MaskKeepsBlock(buf, z);
  }

  lemma RecoversWithin(buf: Address, z: Address, sp: Address)
    requires buf & 127 == 0 && sp + 64 + (64 - 81920) == buf + z
    ensures RecoveredBuf(sp) == buf <==> z < 128
  {
    Recovered(buf, z, sp);
    MaskedIs(buf, z, RecoveredBuf(sp));
  }

  lemma RecoversOffset(buf: Address, sp: Address, d: Address, z: Address)
    requires buf & 127 == 0 && Offset(buf, sp, d, z)
    ensures RecoveredBuf(sp) == buf <==> Near(d)
  {
    RecoversWithin(buf, z, sp);
    WindowAt(d, z);
  }

  lemma NearApart(stub: Address, sp: Address, d: Address)
    requires Apart(stub, sp, d)
    ensures Near(d) <==> Near(sp - stub)
  {
  }

  lemma RecoversStub(buf: Address, stub: Address, sp: Address)
    requires buf & 127 == 0 && stub == buf + 81920 - 64
    ensures RecoveredBuf(sp) == buf <==> Near(sp - stub)
  {
    HasOffset(buf, stub, sp);
    var d, z :| Apart(stub, sp, d) && Offset(buf, sp, d, z);
    RecoversOffset(buf, sp, d, z);
    NearApart(stub, sp, d);
  }

  /** `stubRoutine` finds the buffer that `stackletFork` laid out exactly when the stack pointer, whatever
      it is, is at most 64 bytes below the stub or less than 64 above it. */
  lemma RecoversIffNear(buf: Address, sp: Address)
    requires buf & 127 == 0
    ensures RecoveredBuf(sp) == buf <==> Near(sp - StubOf(buf))
  {
    RecoversStub(buf, StubOf(buf), sp);
  }

  lemma SameStub(b: Address, c: Address)
    ensures StubOf(b) == StubOf(c) <==> b == c
  {
  }

  lemma StubIffBuf(buf: Address, sp: Address)
    ensures RecoveredStub(sp) == StubOf(buf) <==> RecoveredBuf(sp) == buf
  {
    SameStub(RecoveredBuf(sp), buf);
  }

  /** And exactly then it finds the stub. */
  lemma RecoversStubIffNear(buf: Address, sp: Address)
    requires buf & 127 == 0
    ensures RecoveredStub(sp) == StubOf(buf) <==> Near(sp - StubOf(buf))
  {
    RecoversIffNear(buf, sp);
    StubIffBuf(buf, sp);
  }
}
