/**
 * The platform vocabulary the surrogate uses: HRESULT status codes, GUIDs and
 * the fixed class and interface identifiers that appear in the surrogate.
 */
module ComTypes {

  /** An HRESULT, kept as its 32-bit pattern. */
  type HResult = x: int | 0 <= x < 0x1_0000_0000

  const S_OK: HResult := 0
  const E_NOINTERFACE: HResult := 0x8000_4002
  const CLASS_E_NOAGGREGATION: HResult := 0x8004_0110

  /** The FAILED macro: the severity (sign) bit of the HRESULT is set. */
  predicate Failed(hr: HResult) {
    hr >= 0x8000_0000
  }

  /**
   * A GUID with the layout of the platform's GUID structure; the eight bytes
   * of Data4 are packed, first byte highest, into one 64-bit value.
   */
  datatype Guid = Guid(data1: bv32, data2: bv16, data3: bv16, data4: bv64)

  const CLSID_NULL: Guid := Guid(0, 0, 0, 0)

  /** {00000000-0000-0000-C000-000000000046} */
  const IID_IUnknown: Guid := Guid(0x0000_0000, 0x0000, 0x0000, 0xC000_0000_0000_0046)

  /** {00000001-0000-0000-C000-000000000046} */
  const IID_IClassFactory: Guid := Guid(0x0000_0001, 0x0000, 0x0000, 0xC000_0000_0000_0046)

  /** The DOF COM object, {a23bfdbc-9a8a-46c0-8672-60f23d54ffb6}. */
  const CLSID_DirectOutputComObject: Guid := Guid(0xa23b_fdbc, 0x9a8a, 0x46c0, 0x8672_60f2_3d54_ffb6)

  /** The main DOF interface, {63dc1112-571f-4a49-b2fd-cf98c02bf5d4}. */
  const IID_Dof: Guid := Guid(0x63dc_1112, 0x571f, 0x4a49, 0xb2fd_cf98_c02b_f5d4)

  /** The CLSCTX_INPROC_SERVER activation context. */
  const CLSCTX_INPROC_SERVER: nat := 1

  /** CLSCTX_SERVER: in-process, local and remote server contexts (1 | 4 | 16). */
  const CLSCTX_SERVER: nat := 0x15

  /** REGCLS_MULTIPLEUSE: one registration serves any number of activations. */
  const REGCLS_MULTIPLEUSE: nat := 1

  /** COINIT_MULTITHREADED: the free-threaded apartment model. */
  const COINIT_MULTITHREADED: nat := 0
}
