/**
 * `Data.get_revenue` and `Data.get_node`: the revenue response lists the
 * caller's machines, each with its virtual machines nested inside; the
 * virtual machines are moved out into a table of their own, each tagged with
 * the id of the machine that hosts it.
 */
module Revenue {
  import opened Wrappers
  import opened Marketplace

  /** The other columns of a record, as key-value pairs in the response's order. */
  type Fields = seq<(string, Scalar)>

  /**
   * A virtual machine as the response nests it: its id, the `hostnode_id` key
   * if the record carries one itself, and its other columns.
   */
  datatype VirtualMachine = VirtualMachine(virtualMachineId: string, ownHostnodeId: Option<string>, fields: Fields)

  /** A machine of `result.data`. */
  datatype Machine = Machine(hostnodeId: string, virtualMachines: seq<VirtualMachine>, fields: Fields)

  /** A row of the machines table: indexed by `hostnode_id`, without `virtual_machines`. */
  datatype MachineRow = MachineRow(hostnodeId: string, fields: Fields)

  /** A row of the virtual machines table: indexed by `virtual_machine_id`. */
  datatype VirtualRow = VirtualRow(virtualMachineId: string, hostnodeId: string, fields: Fields)

  datatype RevenueError =
    | NoMachineColumn   // `set_index("hostnode_id")` on a frame built from no machines: KeyError
    | NoVirtualColumn   // `set_index("virtual_machine_id")` on a frame built from no virtual machines: KeyError

  /** `get_node` raises NotImplementedError. */
  datatype NodeError = NotImplemented

  /**
   * `{"hostnode_id": id, **virtual}`: the parent's id, unless the virtual
   * machine's own record has a `hostnode_id`, which comes later and wins.
   */
  function Tag(id: string, v: VirtualMachine): (row: VirtualRow)
    ensures row.virtualMachineId == v.virtualMachineId && row.fields == v.fields
    ensures v.ownHostnodeId.None? ==> row.hostnodeId == id
    ensures v.ownHostnodeId.Some? ==> row.hostnodeId == v.ownHostnodeId.value
  {
    VirtualRow(v.virtualMachineId, match v.ownHostnodeId case Some(h) => h case None => id, v.fields)
  }

  /** The virtual machines of one machine, tagged, in order. */
  function TagAll(id: string, vs: seq<VirtualMachine>): (rows: seq<VirtualRow>)
    ensures |rows| == |vs| && forall j :: 0 <= j < |vs| ==> rows[j] == Tag(id, vs[j])
  {
    if vs == [] then [] else TagAll(id, vs[..|vs| - 1]) + [Tag(id, vs[|vs| - 1])]
  }

  /** The `virtuals` list for the machines `ms`: each machine's tagged virtual machines, machine by machine. */
  function Virtuals(ms: seq<Machine>): seq<VirtualRow> {
    if ms == [] then [] else Virtuals(ms[..|ms| - 1]) + TagAll(ms[|ms| - 1].hostnodeId, ms[|ms| - 1].virtualMachines)
  }

  /** The machines table: each machine with its `virtual_machines` column popped. */
  function MachineRows(ms: seq<Machine>): (rows: seq<MachineRow>)
    ensures |rows| == |ms| && forall i :: 0 <= i < |ms| ==> rows[i] == MachineRow(ms[i].hostnodeId, ms[i].fields)
  {
    seq(|ms|, i requires 0 <= i < |ms| => MachineRow(ms[i].hostnodeId, ms[i].fields))
  }

  /** The two tables of `get_revenue`, or the KeyError of indexing an empty frame. */
  function Revenue(ms: seq<Machine>): Result<(seq<MachineRow>, seq<VirtualRow>), RevenueError> {
    if ms == [] then Err(NoMachineColumn)
    else if Virtuals(ms) == [] then Err(NoVirtualColumn)
    else Ok((MachineRows(ms), Virtuals(ms)))
  }

  /** The number of virtual machines of the machines `ms`, in total. */
  function VirtualCount(ms: seq<Machine>): nat {
    if ms == [] then 0 else VirtualCount(ms[..|ms| - 1]) + |ms[|ms| - 1].virtualMachines|
  }

  /**
   * `Data.get_revenue`: pop the `virtual_machines` column, then append every
   * virtual machine of every machine, tagged with its machine's id.
   */
  method GetRevenue(ms: seq<Machine>) returns (res: Result<(seq<MachineRow>, seq<VirtualRow>), RevenueError>)
    ensures res == Revenue(ms)
  {
    if ms == [] {
      return Err(NoMachineColumn);
    }
    var machines := MachineRows(ms);
    var virtuals: seq<VirtualRow> := [];
    for i := 0 to |ms|
      invariant virtuals == Virtuals(ms[..i])
    {
      var id := ms[i].hostnodeId;
      var vs := ms[i].virtualMachines;
      for j := 0 to |vs|
        invariant virtuals == Virtuals(ms[..i]) + TagAll(id, vs[..j])
      {
        assert vs[..j + 1][..j] == vs[..j];
        virtuals := virtuals + [Tag(id, vs[j])];
      }
      assert vs[..|vs|] == vs;
      assert ms[..i + 1][..i] == ms[..i];
    }
    assert ms[..|ms|] == ms;
    if virtuals == [] {
      return Err(NoVirtualColumn);
    }
    res := Ok((machines, virtuals));
  }

  /** How many virtual machines the machines before `i` have. */
  function Offset(ms: seq<Machine>, i: int): nat
    requires 0 <= i <= |ms|
  {
    VirtualCount(ms[..i])
  }

  /** The virtual machines table has as many rows as the machines' lists have elements together. */
  lemma {:induction false} VirtualsLength(ms: seq<Machine>)
    ensures |Virtuals(ms)| == VirtualCount(ms)
  {
    if ms != [] {
      VirtualsLength(ms[..|ms| - 1]);
    }
  }

  /**
   * The `j`-th virtual machine of machine `i` sits at `Offset(ms, i) + j`,
   * after those of the machines before it, tagged with machine `i`'s id.
   */
  lemma {:induction false} VirtualAt(ms: seq<Machine>, i: int, j: int)
    requires 0 <= i < |ms| && 0 <= j < |ms[i].virtualMachines|
    ensures Offset(ms, i) + j < |Virtuals(ms)|
    ensures Virtuals(ms)[Offset(ms, i) + j] == Tag(ms[i].hostnodeId, ms[i].virtualMachines[j])
  {
    var init := ms[..|ms| - 1];
    VirtualsLength(init);
    if i < |ms| - 1 {
      assert ms[..i] == init[..i];
      assert ms[i] == init[i];
      VirtualAt(init, i, j);
    } else {
      assert ms[..i] == init;
    }
  }

  /** Every row of the virtual machines table is a tagged virtual machine of some machine. */
  lemma {:induction false} VirtualsFromMachines(ms: seq<Machine>, k: int)
    requires 0 <= k < |Virtuals(ms)|
    ensures exists i, j ::
      && 0 <= i < |ms| && 0 <= j < |ms[i].virtualMachines|
      && Virtuals(ms)[k] == Tag(ms[i].hostnodeId, ms[i].virtualMachines[j])
  {
    var init := ms[..|ms| - 1];
    var last := ms[|ms| - 1];
    if k < |Virtuals(init)| {
      VirtualsFromMachines(init, k);
      var i, j :| 0 <= i < |init| && 0 <= j < |init[i].virtualMachines| &&
        Virtuals(init)[k] == Tag(init[i].hostnodeId, init[i].virtualMachines[j]);
      assert ms[i] == init[i];
    } else {
      var j := k - |Virtuals(init)|;
      assert Virtuals(ms)[k] == TagAll(last.hostnodeId, last.virtualMachines)[j];
    }
  }

  /**
   * `get_revenue` fails exactly when there is no machine, or no machine has
   * a virtual machine; otherwise the machines table keeps every machine.
   */
  lemma RevenueFails(ms: seq<Machine>)
    ensures Revenue(ms).Err? <==> ms == [] || VirtualCount(ms) == 0
    ensures Revenue(ms).Ok? ==> |Revenue(ms).value.0| == |ms| && |Revenue(ms).value.1| == VirtualCount(ms)
  {
    VirtualsLength(ms);
  }

  /** `Data.get_node` is not implemented: every call raises. */
  function GetNode(hostnodeUuid: string): (res: Result<seq<NodeRecord>, NodeError>)
    ensures res.Err? && res.error == NotImplemented
  {
    Err(NotImplemented)
  }
}
