/** The processor's debug registers over one pass through the payload. */
module DebugRegisters {

  /** Registers 4 and 5 are aliases that the code does not touch. */
  datatype Six = Six(dr0: bv64, dr1: bv64, dr2: bv64, dr3: bv64, dr6: bv64, dr7: bv64)

  /** What kkm_hw_debug_registers_save keeps of register 6: the causes of a debug exception. */
  function Kept(dr6: bv64): bv64 { dr6 & 0x1E00F }

  /** Bits 0 to 3 and 13 to 16 are kept, and nothing is lost exactly when no other was set. */
  lemma KeptExactly(dr6: bv64)
    ensures Kept(dr6) & 0x1E00F == dr6 & 0x1E00F && Kept(dr6) & 0xFFFF_FFFF_FFFE_1FF0 == 0
    ensures Kept(dr6) == dr6 <==> dr6 & 0xFFFF_FFFF_FFFE_1FF0 == 0
  {
  }

  /** Only register 6 is cut or extended. */
  lemma OthersStay(r: Six, causes: bv64)
    ensures Saved(r).(dr6 := r.dr6) == r && WithCauses(r, causes).(dr6 := r.dr6) == r && Saved(r).dr6 == Kept(r.dr6)
  {
  }

  function Saved(r: Six): Six { r.(dr6 := Kept(r.dr6)) }

  function WithCauses(r: Six, causes: bv64): Six { r.(dr6 := r.dr6 | causes) }

  /** The registers, native_debug_registers, debug.registers of the guest area, and debug_registers_set. */
  class DebugUnit {
    var hardware: Six
    var native: Six
    var payload: Six
    const armed: bool

    constructor (hardware: Six, native: Six, payload: Six, armed: bool)
      ensures this.hardware == hardware && this.native == native && this.payload == payload && this.armed == armed
    {
      this.hardware, this.native, this.payload, this.armed := hardware, native, payload, armed;
    }

    /** Before kkm_switch_to_gk_asm, and before the payload's entry. */
    method WayIn()
      modifies this
      ensures armed ==> hardware == old(payload) && native == Saved(old(hardware))
      ensures !armed ==> hardware == old(hardware) && native == old(native)
      ensures payload == old(payload)
    {
      if armed { native, hardware := Saved(hardware), payload; }
    }

    /** In kkm_switch_to_host_kernel, and after kkm_switch_to_gk_asm. */
    method WayOut()
      modifies this
      ensures armed ==> hardware == old(native) && payload == Saved(old(hardware))
      ensures !armed ==> hardware == old(hardware) && payload == old(payload)
      ensures native == old(native)
    {
      if armed { payload, hardware := Saved(hardware), native; }
    }

    /** One pass. The payload cannot write the registers; its debug exceptions leave their causes in
        register 6. Once the monitor has set debug registers, the payload runs under its own, and the host
        gets its own back exactly when its register 6 held nothing but causes. Before that, the host's stay
        in force and collect the payload's causes. */
    method Pass(causes: bv64) returns (during: Six)
      modifies this
      ensures during == if armed then old(payload) else old(hardware)
      ensures armed ==> (hardware == old(hardware) <==> Kept(old(hardware).dr6) == old(hardware).dr6)
      ensures armed ==> hardware == old(hardware).(dr6 := Kept(old(hardware).dr6))
      ensures armed ==> payload == Saved(WithCauses(during, causes))
      ensures !armed ==> hardware == WithCauses(old(hardware), causes) && payload == old(payload)
    {
      WayIn();
      during := hardware;
      hardware := WithCauses(hardware, causes);
      WayOut();
      assert Kept(Kept(old(hardware).dr6)) == Kept(old(hardware).dr6);
    }
  }
}
