/** kkm_idt_descr_init: the system call stub is copied to another address, and its three
    RIP-relative gs accesses are rewritten in place to absolute ones
    (Intel SDM Vol. 2A section 2.2.1.6, RIP-relative addressing). */
module Relocation {
  import opened Constants

  type Byte = b: int | 0 <= b < 256

  const TWO_31 := 0x8000_0000

  /* ---- the part of the instruction set the stub uses ---- */

  datatype Operation = StoreRegister | LoadRegister | PushMemory

  /** How the memory operand is named: relative to the next instruction, or by itself. */
  datatype Operand = RipRelative | Absolute

  datatype Instruction = Undefined
                       | GsAccess(op: Operation, register: nat, operand: Operand, disp: nat, length: nat)

  function Le32(code: seq<Byte>, i: nat): nat
    requires i + 4 <= |code|
  {
    code[i] as int + 0x100 * (code[i + 1] as int) + 0x1_0000 * (code[i + 2] as int) + 0x100_0000 * (code[i + 3] as int)
  }

  function Le32Bytes(x: nat): seq<Byte>
    requires x < TWO_32
  {
    [x % 0x100, x / 0x100 % 0x100, x / 0x1_0000 % 0x100, x / 0x100_0000]
  }

  function SignExtend32(x: nat): nat
    requires x < TWO_32
  {
    if x < TWO_31 then x else x + (TWO_64 - TWO_32)
  }

  /** The operand encoded by the ModRM byte at i: mod 00 with r/m 101 is RIP-relative, and
      r/m 100 with SIB 0x25 (no base, no index) is a bare 32-bit displacement. */
  function DecodeOperand(code: seq<Byte>, i: nat, op: Operation): Instruction {
    if i + 5 <= |code| && code[i] / 64 == 0 && code[i] % 8 == 5 then
      GsAccess(op, code[i] / 8 % 8, RipRelative, Le32(code, i + 1), i + 5)
    else if i + 6 <= |code| && code[i] / 64 == 0 && code[i] % 8 == 4 && code[i + 1] == 0x25 then
      GsAccess(op, code[i] / 8 % 8, Absolute, Le32(code, i + 2), i + 6)
    else Undefined
  }

  /** The instruction that starts the code: gs prefix 65, then 48 89, 48 8b, or ff /6. */
  function Decode(code: seq<Byte>): Instruction {
    if |code| < 3 || code[0] != 0x65 then Undefined
    else if code[1] == 0x48 && code[2] == 0x89 then DecodeOperand(code, 3, StoreRegister)
    else if code[1] == 0x48 && code[2] == 0x8b then DecodeOperand(code, 3, LoadRegister)
    else if code[1] == 0xff && code[2] / 8 % 8 == 6 then DecodeOperand(code, 2, PushMemory)
    else Undefined
  }

  /** The offset from the gs base that an instruction at address ip touches. */
  function GsOffset(insn: Instruction, ip: nat): nat
    requires insn.GsAccess? && insn.disp < TWO_32
  {
    if insn.operand.Absolute? then SignExtend32(insn.disp)
    else (ip + insn.length + SignExtend32(insn.disp)) % TWO_64
  }

  /* ---- the rewrite ---- */

  /** The three instructions of the stub, at kkm_syscall_label_1, _2 and _3. */
  datatype Form = StoreRsp | LoadRsp | PushWord

  function OldBytes(form: Form): seq<Byte> {
    match form
    case StoreRsp => [0x65, 0x48, 0x89, 0x25]
    case LoadRsp => [0x65, 0x48, 0x8b, 0x25]
    case PushWord => [0x65, 0xff, 0x35]
  }

  function NewBytes(form: Form): seq<Byte> {
    match form
    case StoreRsp => [0x65, 0x48, 0x89, 0x24, 0x25]
    case LoadRsp => [0x65, 0x48, 0x8b, 0x24, 0x25]
    case PushWord => [0x65, 0xff, 0x34, 0x25]
  }

  /** Bytes of the instruction as assembled, without the nop that follows it. */
  function OldLength(form: Form): nat {
    |OldBytes(form)| + 4
  }

  predicate Matches(text: seq<Byte>, at: nat, form: Form) {
    at + OldLength(form) <= |text| && text[at..at + |OldBytes(form)|] == OldBytes(form)
  }

  /** rip_value + offset, the displacement taken as unsigned, cut to 32 bits. */
  function NewDisplacement(text: seq<Byte>, at: nat, form: Form, address: nat): nat
    requires Matches(text, at, form)
  {
    (address + at + OldLength(form) + Le32(text, at + |OldBytes(form)|)) % TWO_64 % TWO_32
  }

  function Overlaid(page: seq<Byte>, at: nat, bytes: seq<Byte>): seq<Byte>
    requires at + |bytes| <= |page|
  {
    page[..at] + bytes + page[at + |bytes|..]
  }

  /** The bytes that replace the instruction and its nop. */
  function Rewrite(text: seq<Byte>, at: nat, form: Form, address: nat): (r: seq<Byte>)
    requires Matches(text, at, form)
    ensures |r| == OldLength(form) + 1
  {
    NewBytes(form) + Le32Bytes(NewDisplacement(text, at, form, address))
  }

  function Patched(page: seq<Byte>, text: seq<Byte>, at: nat, form: Form, address: nat): seq<Byte>
    requires at + OldLength(form) + 1 <= |page|
  {
    if Matches(text, at, form) then Overlaid(page, at, Rewrite(text, at, form, address)) else page
  }

  method StoreBytes(page: array<Byte>, at: nat, bytes: seq<Byte>)
    requires at + |bytes| <= page.Length
    modifies page
    ensures page[..] == Overlaid(old(page[..]), at, bytes)
  {
    forall i | 0 <= i < |bytes| {
      page[at + i] := bytes[i];
    }
  }

  /** One of the three blocks: read the instruction in the kernel's text, write the copy. */
  method Patch(text: seq<Byte>, at: nat, form: Form, address: nat, page: array<Byte>)
    requires at + OldLength(form) + 1 <= page.Length
    modifies page
    ensures page[..] == Patched(old(page[..]), text, at, form, address)
  {
    var n := |OldBytes(form)|;
    if at + n + 4 <= |text| && text[at..at + n] == OldBytes(form) {
      var offset := Le32(text, at + n);
      var rip := address + at + n + 4;
      var gsOffset := (rip + offset) % TWO_64;
      var bytes := NewBytes(form) + Le32Bytes(gsOffset % TWO_32);
      assert bytes == Rewrite(text, at, form, address);
      StoreBytes(page, at, bytes);
    }
  }

  /* ---- the rewrite keeps every access, exactly when its address fits 32 signed bits ---- */

  predicate SignExtendsFrom32(x: nat) {
    x < TWO_31 || TWO_64 - TWO_31 <= x < TWO_64
  }

  lemma Le32RoundTrip(x: nat)
    requires x < TWO_32
    ensures Le32(Le32Bytes(x), 0) == x
  {
  }

  lemma LowHalfDecides(t: nat)
    requires t < TWO_64
    ensures SignExtend32(t % TWO_32) == t <==> SignExtendsFrom32(t)
  {
  }

  /** Zero-extending the displacement instead of sign-extending it is lost in the cut to 32 bits. */
  lemma CutForgetsExtension(rip: nat, disp: nat)
    requires disp < TWO_32
    ensures (rip + disp) % TWO_64 % TWO_32 == (rip + SignExtend32(disp)) % TWO_64 % TWO_32
  {
    assert (rip + disp) % TWO_64 % TWO_32 == (rip + disp) % TWO_32;
    assert (rip + SignExtend32(disp)) % TWO_64 % TWO_32 == (rip + SignExtend32(disp)) % TWO_32;
  }

  lemma OldDecodes(text: seq<Byte>, at: nat, form: Form)
    requires Matches(text, at, form)
    ensures var op := match form case StoreRsp => StoreRegister case LoadRsp => LoadRegister case PushWord => PushMemory;
            Decode(text[at..]) == GsAccess(op, if form == PushWord then 6 else 4, RipRelative,
                                           Le32(text, at + |OldBytes(form)|), OldLength(form))
  {
    var t := text[at..];
    var n := |OldBytes(form)|;
    assert forall i :: 0 <= i < n ==> t[i] == text[at..at + n][i];
  }

  lemma NewDecodes(page: seq<Byte>, text: seq<Byte>, at: nat, form: Form, address: nat)
    requires Matches(text, at, form) && at + OldLength(form) + 1 <= |page|
    ensures var op := match form case StoreRsp => StoreRegister case LoadRsp => LoadRegister case PushWord => PushMemory;
            Decode(Patched(page, text, at, form, address)[at..]) ==
            GsAccess(op, if form == PushWord then 6 else 4, Absolute, NewDisplacement(text, at, form, address), OldLength(form) + 1)
  {
    var d := NewDisplacement(text, at, form, address);
    var p := Patched(page, text, at, form, address);
    var opcode := NewBytes(form);
    var rest := page[at + OldLength(form) + 1..];
    assert p[at..] == opcode + Le32Bytes(d) + rest;
    assert forall i :: 0 <= i < |opcode| ==> p[at..][i] == opcode[i];
    assert forall i :: 0 <= i < 4 ==> p[at..][|opcode| + i] == Le32Bytes(d)[i];
    Le32RoundTrip(d);
    assert Le32(p[at..], |opcode|) == d;
  }

  /** The rewritten instruction does, wherever it is mapped, what the original did at its own
      address: same operation, same register, one byte longer so that it absorbs the nop, and the
      same gs offset if and only if that offset sign-extends from 32 bits. */
  lemma RewriteKeepsMeaning(page: seq<Byte>, text: seq<Byte>, at: nat, form: Form, address: nat, newIp: nat)
    requires Matches(text, at, form) && at + OldLength(form) + 1 <= |page|
    ensures var before, after := Decode(text[at..]), Decode(Patched(page, text, at, form, address)[at..]);
            && before.GsAccess? && after.GsAccess? && before.disp < TWO_32 && after.disp < TWO_32
            && after.op == before.op && after.register == before.register && after.length == before.length + 1
            && (GsOffset(after, newIp) == GsOffset(before, address + at) <==> SignExtendsFrom32(GsOffset(before, address + at)))
  {
    OldDecodes(text, at, form);
    NewDecodes(page, text, at, form, address);
    var disp := Le32(text, at + |OldBytes(form)|);
    var rip := address + at + OldLength(form);
    CutForgetsExtension(rip, disp);
    LowHalfDecides((rip + SignExtend32(disp)) % TWO_64);
  }

  /** Nothing outside the instruction and its nop changes. */
  lemma RewriteIsLocal(page: seq<Byte>, text: seq<Byte>, at: nat, form: Form, address: nat)
    requires at + OldLength(form) + 1 <= |page|
    ensures var p := Patched(page, text, at, form, address);
            && |p| == |page|
            && forall i :: 0 <= i < |page| && !(at <= i <= at + OldLength(form)) ==> p[i] == page[i]
  {
  }
}
