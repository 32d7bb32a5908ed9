/**
 * The two MIPS32 register catalogs a debugger offers: the core catalog
 * (general-purpose set, then CP0) and the catalog for cores with an FPU
 * (general-purpose set, then the FPU table, then CP0). The DSP table is
 * described but belongs to neither. The FPU table itself lives in a file
 * that is not part of this model, so the FPU catalog is a function of it.
 */
module RegistersMod {
  import opened RegisterTypes
  import RegistersBase
  import RegistersCp0
  import RegistersDsp

  /** The general-purpose set chained with CP0. */
  const MIPS32_CORE_REGISTERS: seq<CoreRegister> :=
    RegistersBase.MIPS32_REGISTERS_SET + RegistersCp0.MIPS32_CP0_REGISTERS

  /** MIPS32_WITH_FPU_CORE_REGISTERS: the general-purpose set, then the FPU table, then CP0. */
  function WithFpuCoreRegisters(fpu: seq<CoreRegister>): seq<CoreRegister>
  {
    RegistersBase.MIPS32_REGISTERS_SET + fpu + RegistersCp0.MIPS32_CP0_REGISTERS
  }

  /** The core catalog is the 35 general-purpose entries followed by the 131 CP0 entries, in table order. */
  lemma CoreCatalogOrder()
    ensures |MIPS32_CORE_REGISTERS| == 35 + 131
    ensures forall i :: 0 <= i < 35 ==> MIPS32_CORE_REGISTERS[i] == RegistersBase.MIPS32_REGISTERS_SET[i]
    ensures forall i :: 0 <= i < 131 ==> MIPS32_CORE_REGISTERS[35 + i] == RegistersCp0.MIPS32_CP0_REGISTERS[i]
  {
  }

  /** The FPU catalog puts the FPU table between the general-purpose set and CP0. */
  lemma WithFpuCatalogOrder(fpu: seq<CoreRegister>)
    ensures |WithFpuCoreRegisters(fpu)| == 35 + |fpu| + 131
    ensures forall i :: 0 <= i < 35 ==> WithFpuCoreRegisters(fpu)[i] == RegistersBase.MIPS32_REGISTERS_SET[i]
    ensures forall i :: 0 <= i < |fpu| ==> WithFpuCoreRegisters(fpu)[35 + i] == fpu[i]
    ensures forall i :: 0 <= i < 131 ==>
      WithFpuCoreRegisters(fpu)[35 + |fpu| + i] == RegistersCp0.MIPS32_CP0_REGISTERS[i]
  {
  }

  /** The FPU catalog holds every entry of the core catalog and exactly the FPU table besides. */
  lemma WithFpuExtendsCore(fpu: seq<CoreRegister>)
    ensures |WithFpuCoreRegisters(fpu)| == |MIPS32_CORE_REGISTERS| + |fpu|
    ensures forall r :: r in MIPS32_CORE_REGISTERS ==> r in WithFpuCoreRegisters(fpu)
    ensures forall r :: r in WithFpuCoreRegisters(fpu) <==> r in MIPS32_CORE_REGISTERS || r in fpu
  {
  }

  /** General-purpose ids are at most 37 and CP0 ids carry bit 15. */
  lemma CatalogIdRanges()
    ensures forall i :: 0 <= i < |RegistersBase.MIPS32_REGISTERS_SET| ==>
      RegistersBase.MIPS32_REGISTERS_SET[i].id as nat <= 37
    ensures forall i :: 0 <= i < |RegistersCp0.MIPS32_CP0_REGISTERS| ==>
      RegistersCp0.MIPS32_CP0_REGISTERS[i].id & 0x8000 == 0x8000
  {
    RegistersBase.RegisterSetLayout();
    RegistersCp0.Cp0CatalogIdsMatchNames();
  }

  /** No DSP register is in the core catalog. */
  lemma CoreCatalogHasNoDsp()
    ensures forall d :: d in RegistersDsp.MIPS32_DSP_REGISTERS ==> d !in MIPS32_CORE_REGISTERS
  {
    CatalogIdRanges();
    RegistersDsp.DspTableLayout();
    RegistersDsp.DspIdsOutsideCp0Space();
  }

  /** The FPU catalog holds a DSP register only if the FPU table itself does. */
  lemma WithFpuCatalogDsp(fpu: seq<CoreRegister>)
    ensures forall d :: d in RegistersDsp.MIPS32_DSP_REGISTERS ==>
      (d in WithFpuCoreRegisters(fpu) <==> d in fpu)
  {
    CoreCatalogHasNoDsp();
    WithFpuExtendsCore(fpu);
  }

  /** No id appears twice in the core catalog. */
  lemma CoreCatalogIdsUnique()
    ensures forall i, j :: 0 <= i < j < |MIPS32_CORE_REGISTERS| ==> MIPS32_CORE_REGISTERS[i].id != MIPS32_CORE_REGISTERS[j].id
  {
    var c := MIPS32_CORE_REGISTERS;
    CatalogIdRanges();
    RegistersBase.RegisterSetIdsUnique();
    RegistersCp0.Cp0CatalogSorted();
    forall i, j | 0 <= i < j < |c| ensures c[i].id != c[j].id {
      if j < 35 {
        assert c[i] == RegistersBase.MIPS32_REGISTERS_SET[i] && c[j] == RegistersBase.MIPS32_REGISTERS_SET[j];
      } else if i < 35 {
        assert c[i] == RegistersBase.MIPS32_REGISTERS_SET[i] && c[j] == RegistersCp0.MIPS32_CP0_REGISTERS[j - 35];
        assert c[i].id & 0x8000 == 0 by {
          BoundedIdHasNoMarker(c[i].id);
        }
      } else {
        assert c[i] == RegistersCp0.MIPS32_CP0_REGISTERS[i - 35] && c[j] == RegistersCp0.MIPS32_CP0_REGISTERS[j - 35];
      }
    }
  }

  /** An id below 0x8000 lacks the CP0 marker bit. */
  lemma BoundedIdHasNoMarker(id: bv16)
    requires id as nat < 0x8000
    ensures id & 0x8000 == 0
  {
  }

  /**
   * No id appears twice in the FPU catalog, provided the FPU table's own ids
   * are distinct and lie between the general-purpose ids and the CP0 space.
   */
  lemma WithFpuCatalogIdsUnique(fpu: seq<CoreRegister>)
    requires forall i :: 0 <= i < |fpu| ==> 37 < fpu[i].id as nat < 0x8000
    requires forall i, j :: 0 <= i < j < |fpu| ==> fpu[i].id != fpu[j].id
    ensures forall i, j :: 0 <= i < j < |WithFpuCoreRegisters(fpu)| ==>
      WithFpuCoreRegisters(fpu)[i].id != WithFpuCoreRegisters(fpu)[j].id
  {
    var c := WithFpuCoreRegisters(fpu);
    var n := |fpu|;
    CatalogIdRanges();
    CoreCatalogIdsUnique();
    WithFpuCatalogOrder(fpu);
    forall i, j | 0 <= i < j < |c| ensures c[i].id != c[j].id {
      if 35 <= i < 35 + n {
        if j < 35 + n {
          assert c[i] == fpu[i - 35] && c[j] == fpu[j - 35];
        } else {
          assert c[j] == RegistersCp0.MIPS32_CP0_REGISTERS[j - 35 - n];
          BoundedIdHasNoMarker(c[i].id);
        }
      } else if 35 <= j < 35 + n {
        assert c[i] == RegistersBase.MIPS32_REGISTERS_SET[i] && c[j] == fpu[j - 35];
      } else {
        var i', j' := if i < 35 then i else i - n, if j < 35 then j else j - n;
        assert c[i] == MIPS32_CORE_REGISTERS[i'] && c[j] == MIPS32_CORE_REGISTERS[j'];
      }
    }
  }
}
