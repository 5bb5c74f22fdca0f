/** What a device's interface pointer refers to, and the guards a device runs
    on it before any driver call: pointer validity, the interface's kind by
    `IsA(name)`, and the interface's state. */
module Targets {
  import opened Prims
  import opened Wrappers
  import opened Defs
  import opened Errs
  import opened Reporting
  import Identity
  import CifInterfaces
  import NiInterfaces

  /** The concrete interface behind a valid pointer. */
  datatype Target = CifTarget(cif: CifInterfaces.CifInterface) | NiTarget(ni: NiInterfaces.NiInterface)
  {
    predicate Active() {
      match this
      case CifTarget(c) => c.Active()
      case NiTarget(n) => n.Active()
    }

    function ClassOf(): Identity.Class {
      match this
      case CifTarget(_) => Identity.CifInterface
      case NiTarget(_) => Identity.NiInterface
    }
  }

  const CIF_KIND := "CCIFInterface"
  const NI_KIND := "CNIInterface"

  /** The kind test picks out exactly the matching backend. */
  lemma KindTest(t: Target)
    ensures Identity.IsAName(t.ClassOf(), CIF_KIND) <==> t.CifTarget?
    ensures Identity.IsAName(t.ClassOf(), NI_KIND) <==> t.NiTarget?
  {
    Identity.InterfaceKindByName(t.ClassOf());
  }

  function InvalidPointer(mac: uint8, p: Ptr, m: LastMsg): Reported {
    Report(ERR_INVPTR, [Num(mac), Text("pInterface"), Num(p)], m)
  }

  function WrongKind(mac: uint8, kind: string, m: LastMsg): Reported {
    Report(ERR_INVITF, [Num(mac), Text(kind)], m)
  }

  function NotOperating(op: string, m: LastMsg): Reported {
    Report(ERR_INOPER, [Text(op)], m)
  }

  /** Pointer, then kind, then interface state: the order of `Allocate`,
      `Unallocate` and the I/O exchange. None means every guard passed. */
  function KindFirst(mac: uint8, p: Ptr, t: Target, kind: string, op: string, m: LastMsg): (g: Option<Reported>)
    ensures g.None? <==> IsPtrValid(p) && Identity.IsAName(t.ClassOf(), kind) && t.Active()
    ensures !IsPtrValid(p) ==> g == Some(InvalidPointer(mac, p, m))
    ensures IsPtrValid(p) && !Identity.IsAName(t.ClassOf(), kind) ==> g == Some(WrongKind(mac, kind, m))
    ensures g.Some? ==> g.value.code in {ERR_INVPTR, ERR_INVITF, ERR_INOPER}
  {
    if !IsPtrValid(p) then Some(InvalidPointer(mac, p, m))
    else if !Identity.IsAName(t.ClassOf(), kind) then Some(WrongKind(mac, kind, m))
    else if !t.Active() then Some(NotOperating(op, m))
    else None
  }

  /** Pointer, then interface state, then kind: the order of the board
      device's attribute and service requests. */
  function StateFirst(mac: uint8, p: Ptr, t: Target, kind: string, op: string, m: LastMsg): (g: Option<Reported>)
    ensures g.None? <==> IsPtrValid(p) && Identity.IsAName(t.ClassOf(), kind) && t.Active()
    ensures !IsPtrValid(p) ==> g == Some(InvalidPointer(mac, p, m))
    ensures IsPtrValid(p) && !t.Active() ==> g == Some(NotOperating(op, m))
    ensures g.Some? ==> g.value.code in {ERR_INVPTR, ERR_INVITF, ERR_INOPER}
  {
    if !IsPtrValid(p) then Some(InvalidPointer(mac, p, m))
    else if !t.Active() then Some(NotOperating(op, m))
    else if !Identity.IsAName(t.ClassOf(), kind) then Some(WrongKind(mac, kind, m))
    else None
  }

  /** The two orders agree except on an inactive interface of the wrong
      kind, where one reports the kind and the other the state. */
  lemma GuardOrdersDiffer(mac: uint8, p: Ptr, t: Target, kind: string, op: string, m: LastMsg)
    ensures KindFirst(mac, p, t, kind, op, m) != StateFirst(mac, p, t, kind, op, m) <==>
      IsPtrValid(p) && !t.Active() && !Identity.IsAName(t.ClassOf(), kind)
  {
    if IsPtrValid(p) && !t.Active() && !Identity.IsAName(t.ClassOf(), kind) {
      assert KindFirst(mac, p, t, kind, op, m).value.code == ERR_INVITF;
      assert StateFirst(mac, p, t, kind, op, m).value.code == ERR_INOPER;
    }
  }
}
