/** DeviceNet constants, lookup limits and the pointer-validity test of the
    module's definitions header. */
module Defs {
  import opened Prims

  /** MAC ids are 0..63. */
  const DEVICENET_MAX_DEVICES: int := 64

  type MacId = x: int | 0 <= x < DEVICENET_MAX_DEVICES

  /** Abstract baud-rate codes. */
  const DEVICENET_BAUD_125K: uint8 := 1
  const DEVICENET_BAUD_250K: uint8 := 2
  const DEVICENET_BAUD_500K: uint8 := 3

  /** Abstract connection-type bits. */
  const DEVICENET_CONN_POLLED: bv8 := 0x01
  const DEVICENET_CONN_STRBED: bv8 := 0x02
  const DEVICENET_CONN_COS: bv8 := 0x04
  const DEVICENET_CONN_CYCLIC: bv8 := 0x08

  /** Table and buffer limits. */
  const DNETMOD_MAX_VENDID: int := 829
  const DNETMOD_MAX_VENDSTR_LEN: int := 54
  const DNETMOD_MAX_DEVTYPE: int := 28
  const DNETMOD_MAX_DTSTR_LEN: int := 25
  const DNETMOD_MAX_ERRMSG_LEN: int := 200
  const DNETMOD_MAX_DERRMSG_LEN: int := 32

  /** Pointers are 32-bit addresses; null and the two debug-heap fill
      patterns count as invalid. */
  type Ptr = uint32

  predicate IsPtrValid(p: Ptr) {
    p != 0 && p != 0xcdcdcdcd && p != 0xcccccccc
  }

  /** The three pointer values the check rejects, and only those. */
  lemma InvalidPointers(p: Ptr)
    ensures !IsPtrValid(p) <==> p in {0, 0xcdcdcdcd, 0xcccccccc}
  {
  }

  /** The baud codes an interface accepts. */
  predicate ValidBaud(br: uint8) {
    br == DEVICENET_BAUD_125K || br == DEVICENET_BAUD_250K || br == DEVICENET_BAUD_500K
  }

  /** The backend's bit for each abstract connection type. */
  datatype ConnBits = ConnBits(polled: bv8, strobed: bv8, cos: bv8, cyclic: bv8)

  /** The backend bit `b` when the abstract bit `bit` is set in `ct`. */
  function ConnPart(ct: bv8, bit: bv8, b: bv8): bv8 {
    if ct & bit != 0 then b else 0
  }

  /** `CT_TO_CT` of either backend: each abstract connection bit present in
      `ct` contributes its backend bit; every other bit of `ct` is dropped. */
  function TranslateConnType(ct: bv8, m: ConnBits): (r: bv8)
    ensures r & !(m.polled | m.strobed | m.cos | m.cyclic) == 0
    ensures ct & 0x0F == 0 ==> r == 0
  {
    ConnPart(ct, DEVICENET_CONN_POLLED, m.polled)
    | ConnPart(ct, DEVICENET_CONN_STRBED, m.strobed)
    | ConnPart(ct, DEVICENET_CONN_COS, m.cos)
    | ConnPart(ct, DEVICENET_CONN_CYCLIC, m.cyclic)
  }

  /** A backend bit that no other backend bit overlaps is set in the
      translation exactly when its abstract bit is set; one lemma per type. */
  lemma {:induction false} TranslatePolled(ct: bv8, m: ConnBits)
    requires m.polled != 0 && m.polled & (m.strobed | m.cos | m.cyclic) == 0
    ensures TranslateConnType(ct, m) & m.polled != 0 <==> ct & DEVICENET_CONN_POLLED != 0
  {
    assert (ConnPart(ct, DEVICENET_CONN_STRBED, m.strobed) | ConnPart(ct, DEVICENET_CONN_COS, m.cos)
      | ConnPart(ct, DEVICENET_CONN_CYCLIC, m.cyclic)) & m.polled == 0;
  }

  lemma {:induction false} TranslateStrobed(ct: bv8, m: ConnBits)
    requires m.strobed != 0 && m.strobed & (m.polled | m.cos | m.cyclic) == 0
    ensures TranslateConnType(ct, m) & m.strobed != 0 <==> ct & DEVICENET_CONN_STRBED != 0
  {
    assert (ConnPart(ct, DEVICENET_CONN_POLLED, m.polled) | ConnPart(ct, DEVICENET_CONN_COS, m.cos)
      | ConnPart(ct, DEVICENET_CONN_CYCLIC, m.cyclic)) & m.strobed == 0;
  }

  lemma {:induction false} TranslateCos(ct: bv8, m: ConnBits)
    requires m.cos != 0 && m.cos & (m.polled | m.strobed | m.cyclic) == 0
    ensures TranslateConnType(ct, m) & m.cos != 0 <==> ct & DEVICENET_CONN_COS != 0
  {
    assert (ConnPart(ct, DEVICENET_CONN_POLLED, m.polled) | ConnPart(ct, DEVICENET_CONN_STRBED, m.strobed)
      | ConnPart(ct, DEVICENET_CONN_CYCLIC, m.cyclic)) & m.cos == 0;
  }

  lemma {:induction false} TranslateCyclic(ct: bv8, m: ConnBits)
    requires m.cyclic != 0 && m.cyclic & (m.polled | m.strobed | m.cos) == 0
    ensures TranslateConnType(ct, m) & m.cyclic != 0 <==> ct & DEVICENET_CONN_CYCLIC != 0
  {
    assert (ConnPart(ct, DEVICENET_CONN_POLLED, m.polled) | ConnPart(ct, DEVICENET_CONN_STRBED, m.strobed)
      | ConnPart(ct, DEVICENET_CONN_COS, m.cos)) & m.cyclic == 0;
  }

  /** Bits of `ct` outside the four abstract connection bits have no effect. */
  lemma {:induction false} TranslateIgnoresHighBits(ct: bv8, m: ConnBits)
    ensures TranslateConnType(ct, m) == TranslateConnType(ct & 0x0F, m)
  {
    var low := ct & 0x0F;
    assert low & DEVICENET_CONN_POLLED == ct & DEVICENET_CONN_POLLED;
    assert low & DEVICENET_CONN_STRBED == ct & DEVICENET_CONN_STRBED;
    assert low & DEVICENET_CONN_COS == ct & DEVICENET_CONN_COS;
    assert low & DEVICENET_CONN_CYCLIC == ct & DEVICENET_CONN_CYCLIC;
  }

  /** The abstract connection types are four disjoint single bits and the
      baud codes three distinct values. */
  lemma ConstantsDistinct()
    ensures DEVICENET_CONN_POLLED & DEVICENET_CONN_STRBED == 0
    ensures DEVICENET_CONN_POLLED & DEVICENET_CONN_COS == 0
    ensures DEVICENET_CONN_POLLED & DEVICENET_CONN_CYCLIC == 0
    ensures DEVICENET_CONN_STRBED & DEVICENET_CONN_COS == 0
    ensures DEVICENET_CONN_STRBED & DEVICENET_CONN_CYCLIC == 0
    ensures DEVICENET_CONN_COS & DEVICENET_CONN_CYCLIC == 0
    ensures DEVICENET_BAUD_125K != DEVICENET_BAUD_250K && DEVICENET_BAUD_250K != DEVICENET_BAUD_500K
    ensures DEVICENET_BAUD_125K != DEVICENET_BAUD_500K
  {
  }
}
