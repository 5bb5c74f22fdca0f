/** The hand-rolled run-time type identification every class of the module
    carries: a class id, a class name, and an `IsA` test that checks the
    class's own id or name and otherwise defers to the class it names as its
    base. */
module Identity {
  import opened Prims
  import opened Wrappers

  datatype Class =
    | Identificator | Node | Interface | Device
    | CifInterface | NiInterface | CifDevice | NiDevice

  function ClassId(c: Class): uint32 {
    match c
    case Identificator => 101
    case Node => 201
    case Interface => 301
    case Device => 351
    case NiInterface => 401
    case CifInterface => 402
    case CifDevice => 352
    case NiDevice => 351
  }

  function ClassName(c: Class): string {
    match c
    case Identificator => "CIdentificator"
    case Node => "CNode"
    case Interface => "CInterface"
    case Device => "CDevice"
    case NiInterface => "CNIInterface"
    case CifInterface => "CCIFInterface"
    case CifDevice => "CCIFDevice"
    case NiDevice => "CNIDevice"
  }

  /** The class each `IsA` defers to. Interfaces and devices name the root
      directly, skipping the node class they derive from. */
  function Deferral(c: Class): Option<Class> {
    match c
    case Identificator => None
    case Node => Some(Identificator)
    case Interface => Some(Identificator)
    case Device => Some(Identificator)
    case NiInterface => Some(Interface)
    case CifInterface => Some(Interface)
    case CifDevice => Some(Device)
    case NiDevice => Some(Device)
  }

  function Depth(c: Class): nat {
    match c
    case Identificator => 0
    case Node | Interface | Device => 1
    case _ => 2
  }

  lemma DeferralDecreases(c: Class)
    ensures Deferral(c).Some? ==> Depth(Deferral(c).value) < Depth(c)
  {
  }

  /** `IsA(id)` along the deferral chain. */
  function IsAId(c: Class, id: int): bool
    decreases Depth(c)
  {
    DeferralDecreases(c);
    id == ClassId(c) || (Deferral(c).Some? && IsAId(Deferral(c).value, id))
  }

  /** `IsA(name)` along the deferral chain (`strcmp` equality). */
  function IsAName(c: Class, name: string): bool
    decreases Depth(c)
  {
    DeferralDecreases(c);
    name == ClassName(c) || (Deferral(c).Some? && IsAName(Deferral(c).value, name))
  }

  /** The chain each class's `IsA` walks, written out class by class. */
  function Chain(c: Class): (r: seq<Class>)
    ensures |r| >= 1 && r[0] == c && r[|r| - 1] == Identificator
  {
    match c
    case Identificator => [Identificator]
    case Node => [Node, Identificator]
    case Interface => [Interface, Identificator]
    case Device => [Device, Identificator]
    case NiInterface => [NiInterface, Interface, Identificator]
    case CifInterface => [CifInterface, Interface, Identificator]
    case CifDevice => [CifDevice, Device, Identificator]
    case NiDevice => [NiDevice, Device, Identificator]
  }

  /** `IsA(id)` holds exactly for the ids of the written-out chain. */
  lemma {:induction false} IsAIdChain(c: Class, id: int)
    ensures IsAId(c, id) <==> exists k :: 0 <= k < |Chain(c)| && ClassId(Chain(c)[k]) == id
    decreases Depth(c)
  {
    var ch := Chain(c);
    if Deferral(c).Some? {
      var p := Deferral(c).value;
      IsAIdChain(p, id);
      assert ch[1..] == Chain(p);
      if IsAId(p, id) {
        var k :| 0 <= k < |Chain(p)| && ClassId(Chain(p)[k]) == id;
        assert ClassId(ch[k + 1]) == id;
      }
      if k :| 0 <= k < |ch| && ClassId(ch[k]) == id {
        if k > 0 {
          assert ClassId(Chain(p)[k - 1]) == id;
        }
      }
    } else {
      assert c == Identificator;
    }
  }

  /** `IsA(name)` holds exactly for the names of the written-out chain. */
  lemma {:induction false} IsANameChain(c: Class, name: string)
    ensures IsAName(c, name) <==> exists k :: 0 <= k < |Chain(c)| && ClassName(Chain(c)[k]) == name
    decreases Depth(c)
  {
    var ch := Chain(c);
    if Deferral(c).Some? {
      var p := Deferral(c).value;
      IsANameChain(p, name);
      assert ch[1..] == Chain(p);
      if IsAName(p, name) {
        var k :| 0 <= k < |Chain(p)| && ClassName(Chain(p)[k]) == name;
        assert ClassName(ch[k + 1]) == name;
      }
      if k :| 0 <= k < |ch| && ClassName(ch[k]) == name {
        if k > 0 {
          assert ClassName(Chain(p)[k - 1]) == name;
        }
      }
    } else {
      assert c == Identificator;
    }
  }

  /** The root answers only to its own id and name, and every class answers
      to the root's. */
  lemma RootIdentity(c: Class, id: int, name: string)
    ensures IsAId(Identificator, id) <==> id == 101
    ensures IsAName(Identificator, name) <==> name == "CIdentificator"
    ensures IsAId(c, 101) && IsAName(c, "CIdentificator")
  {
    IsAIdChain(c, 101);
    IsANameChain(c, "CIdentificator");
    assert ClassId(Chain(c)[|Chain(c)| - 1]) == 101;
    assert ClassName(Chain(c)[|Chain(c)| - 1]) == "CIdentificator";
  }

  /** Only a node reports `IsA(201)`: interfaces and devices skip it. */
  lemma {:induction false} OnlyNodeIsNode(c: Class)
    ensures IsAId(c, 201) <==> c == Node
  {
    IsAIdChain(c, 201);
  }

  /** All three device classes report `IsA(351)`. */
  lemma {:induction false} DevicesAreDevices()
    ensures IsAId(Device, 351) && IsAId(CifDevice, 351) && IsAId(NiDevice, 351)
    ensures !IsAId(CifInterface, 351) && !IsAId(NiInterface, 351)
  {
    IsAIdChain(Device, 351);
    IsAIdChain(CifDevice, 351);
    IsAIdChain(NiDevice, 351);
    IsAIdChain(CifInterface, 351);
    IsAIdChain(NiInterface, 351);
  }

  /** The NI device shares its id with the device base class, so no `IsA(id)`
      tells the two apart, while `IsA(name)` does. */
  lemma {:induction false} NiDeviceIndistinguishableById(id: int)
    ensures IsAId(NiDevice, id) <==> IsAId(Device, id)
    ensures IsAName(NiDevice, "CNIDevice") && !IsAName(Device, "CNIDevice")
  {
    IsAIdChain(NiDevice, id);
    IsAIdChain(Device, id);
    IsANameChain(NiDevice, "CNIDevice");
    IsANameChain(Device, "CNIDevice");
  }

  /** The name test a device applies to its interface picks out the board
      interface only. */
  lemma {:induction false} InterfaceKindByName(c: Class)
    ensures IsAName(c, "CCIFInterface") <==> c == CifInterface
    ensures IsAName(c, "CNIInterface") <==> c == NiInterface
  {
    IsANameChain(c, "CCIFInterface");
    IsANameChain(c, "CNIInterface");
  }

  /** `GetClassID` is not virtual: every object reports the root's id. */
  function GetClassId(c: Class): (id: uint32)
    ensures id == ClassId(Identificator)
    ensures id == ClassId(c) <==> c == Identificator
  {
    101
  }

  /** `GetClassName` copies the root's name into a buffer of `size`
      characters, whatever the object's class, with `strncpy` truncation and
      padding. */
  function GetClassName(c: Class, size: nat): (buf: string)
    ensures |buf| == size
    ensures forall k :: 0 <= k < size && k < 14 ==> buf[k] == "CIdentificator"[k]
    ensures forall k :: 14 <= k < size ==> buf[k] == '\0'
  {
    StrNCpy("CIdentificator", size)
  }
}
