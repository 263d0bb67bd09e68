/**
  One switch of the spanning-tree protocol, as the object whose fields its handlers update.  Each
  handler is proved against the view-level functions of module SpanningTree.
 */
module SpanningTreeSwitch {
  import opened Basics
  import opened SpanningTree

  datatype PortState = Forwarding | Blocking
  datatype PortType = Designated | NonDesignated | RootType

  class Switch {
    const switchId: nat
    const stpCost: nat
    const stpStatus: bool
    const interfaces: seq<nat>

    var rootId: nat
    var rootPathCost: nat
    var rootPort: Option<nat>
    var portState: map<nat, PortState>
    var portType: map<nat, PortType>

    /** Every port has a state and a type, and only the root port can be of root type. */
    ghost predicate Valid()
      reads this
    {
      && (forall i :: i in portState <==> i in interfaces)
      && (forall i :: i in portType <==> i in interfaces)
      && (forall i :: i in portType && portType[i] == RootType ==> rootPort == Some(i))
    }

    ghost function Value(): View
      reads this
    {
      View(rootId, rootPathCost, rootPort, set i | i in portState && portState[i] == Blocking)
    }

    /** A switch starts as root, with every port forwarding. */
    constructor (id: nat, cost: nat, enabled: bool, ports: seq<nat>)
      ensures Valid() && Value() == View(id, 0, None, {})
      ensures switchId == id && stpCost == cost && stpStatus == enabled && interfaces == ports
    {
      switchId, stpCost, stpStatus, interfaces := id, cost, enabled, ports;
      rootId, rootPathCost, rootPort := id, 0, None;
      portState := map i | i in ports :: Forwarding;
      portType := map i | i in ports :: Designated;
    }

    /** The first BPDU, addressed to every port. */
    method SendConfigBpdu() returns (out: seq<Bpdu>)
      ensures out == Copies(switchId, rootId, stpCost, None, interfaces)
    {
      out := Address(rootId, stpCost, None);
    }

    /** The loop over the interfaces that skips `inter` and adds a destination for each other one. */
    method Address(root: nat, cost: nat, inter: Option<nat>) returns (out: seq<Bpdu>)
      ensures out == Copies(switchId, root, cost, inter, interfaces)
    {
      out := [];
      for i := 0 to |interfaces|
        invariant out == Copies(switchId, root, cost, inter, interfaces[..i])
      {
        assert interfaces[..i + 1][..i] == interfaces[..i];
        if inter != Some(interfaces[i]) {
          out := out + [Bpdu(switchId, interfaces[i], root, cost)];
        }
      }
      assert interfaces[..|interfaces|] == interfaces;
    }

    method BlockPort(port: nat)
      requires Valid() && port in interfaces
      modifies this`portState, this`portType
      ensures Valid()
      ensures portState == old(portState)[port := Blocking]
      ensures portType == old(portType)[port := NonDesignated]
    {
      portState := portState[port := Blocking];
      portType := portType[port := NonDesignated];
    }

    method MarkPort(port: nat)
      requires Valid() && port in interfaces
      modifies this`rootPort, this`portType
      ensures Valid() && rootPort == Some(port)
      ensures forall i :: i in interfaces ==> portType[i] == if i == port then RootType else Designated
    {
      rootPort := Some(port);
      for k := 0 to |interfaces|
        invariant rootPort == Some(port)
        invariant forall i :: i in portType <==> i in interfaces
        invariant forall j :: 0 <= j < k ==>
          portType[interfaces[j]] == if interfaces[j] == port then RootType else Designated
      {
        portType := portType[interfaces[k] := if interfaces[k] == port then RootType else Designated];
      }
    }

    method UpdateSpt(b: Bpdu, port: nat)
      requires Valid() && rootPort == Some(port)
      modifies this`rootId, this`rootPathCost, this`rootPort
      ensures Valid()
      ensures rootId == b.rootId && rootPathCost == b.rootPathCost && rootPort == Some(port)
    {
      rootId, rootPathCost, rootPort := b.rootId, b.rootPathCost, Some(port);
    }

    /** Handles a packet arriving on `port`; a switch without the protocol, or a packet without a BPDU, changes nothing. */
    method ProcessConfigBpdu(packet: Option<Bpdu>, port: nat) returns (out: seq<Bpdu>, error: bool)
      requires Valid() && port in interfaces
      modifies this
      ensures Valid()
      ensures error == (!stpStatus || packet == None)
      ensures error ==> Value() == old(Value()) && out == []
      ensures !error ==>
        && Value() == Receive(packet.value, switchId, old(Value()), port)
        && out == Reaction(packet.value, switchId, stpCost, old(Value()), port, interfaces)
    {
      hide Copies, Compare;
      out := [];
      error := !stpStatus || packet == None;
      if error {
        return;
      }
      var b := packet.value;
      var verdict := CompareBpdu(b, port);
      if verdict == Block {
        BlockPort(port);
        assert Value().blocked == old(Value()).blocked + {port};
      } else if verdict == Forward {
        MarkPort(port);
        UpdateSpt(b, port);
        out := Address(b.rootId, stpCost + b.rootPathCost, Some(port));
      }
    }

    method CompareBpdu(b: Bpdu, port: nat) returns (verdict: Verdict)
      ensures verdict == Compare(b, switchId, Value(), port)
    {
      if b.rootId == rootId {
        if rootId == switchId {
          return DontForward;
        } else if b.rootPathCost == rootPathCost {
          return if rootPort == Some(port) then DontForward else Block;
        } else if b.rootPathCost < rootPathCost {
          return Forward;
        } else {
          return Block;
        }
      } else if b.rootId < rootId {
        return Forward;
      } else {
        return DontForward;
      }
    }
  }
}
