/** Lists of processes, as the resource stores them, and the tables they stand for. */
module Listing {
  import opened Options
  import opened OperatorTypes

  /** The processes of a list by a key; a later entry hides an earlier one with the same key. */
  function Table<K>(list: seq<NodeStatus>, key: NodeStatus -> K): map<K, NodeStatus> {
    if list == [] then map[]
    else
      var last := list[|list| - 1];
      Table(list[..|list| - 1], key)[key(last) := last]
  }

  ghost predicate Distinct<K>(list: seq<NodeStatus>, key: NodeStatus -> K) {
    forall j, k :: 0 <= j < k < |list| ==> key(list[j]) != key(list[k])
  }

  lemma {:induction false} TableHas<K>(list: seq<NodeStatus>, key: NodeStatus -> K, k: nat)
    requires Distinct(list, key) && k < |list|
    ensures key(list[k]) in Table(list, key) && Table(list, key)[key(list[k])] == list[k]
  {
    if k < |list| - 1 { TableHas(list[..|list| - 1], key, k); }
  }

  lemma {:induction false} TableOnly<K>(list: seq<NodeStatus>, key: NodeStatus -> K, x: K) returns (k: nat)
    requires x in Table(list, key)
    ensures k < |list| && key(list[k]) == x && Table(list, key)[x] == list[k]
  {
    if key(list[|list| - 1]) == x {
      k := |list| - 1;
    } else {
      k := TableOnly(list[..|list| - 1], key, x);
    }
  }

  lemma TableMisses<K>(list: seq<NodeStatus>, key: NodeStatus -> K, x: K)
    requires forall k :: 0 <= k < |list| ==> key(list[k]) != x
    ensures x !in Table(list, key)
  {
    if x in Table(list, key) { var k := TableOnly(list, key, x); }
  }

  /** Entry by entry the same change. */
  ghost predicate Mapped(a: seq<NodeStatus>, b: seq<NodeStatus>, f: NodeStatus -> NodeStatus) {
    |b| == |a| && forall k :: 0 <= k < |a| ==> b[k] == f(a[k])
  }

  /** A change of entries that keeps their keys changes the table alike. */
  lemma {:induction false} MappedTable<K>(
    a: seq<NodeStatus>, b: seq<NodeStatus>, key: NodeStatus -> K, f: NodeStatus -> NodeStatus)
    requires Mapped(a, b, f) && forall k :: 0 <= k < |a| ==> key(f(a[k])) == key(a[k])
    ensures Table(b, key).Keys == Table(a, key).Keys
    ensures forall x :: x in Table(a, key) ==> Table(b, key)[x] == f(Table(a, key)[x])
  {
    if a != [] { MappedTable(a[..|a| - 1], b[..|b| - 1], key, f); }
  }

  // ---- current processes ----

  function OrdinalKey(): NodeStatus -> nat { (n: NodeStatus) => n.ordinal }

  function IdKey(): NodeStatus -> Identity { (n: NodeStatus) => n.id }

  predicate Sorted(nodes: seq<NodeStatus>) {
    forall j, k :: 0 <= j < k < |nodes| ==> nodes[j].ordinal < nodes[k].ordinal
  }

  function Nodes(nodes: seq<NodeStatus>): map<nat, NodeStatus> { Table(nodes, OrdinalKey()) }

  function History(previous: seq<NodeStatus>): map<Identity, NodeStatus> { Table(previous, IdKey()) }

  lemma SortedIsDistinct(nodes: seq<NodeStatus>)
    requires Sorted(nodes)
    ensures Distinct(nodes, OrdinalKey())
  {
  }

  /** A sorted list is determined by what it lists. */
  lemma {:induction false} SortedIsUnique(a: seq<NodeStatus>, b: seq<NodeStatus>)
    requires Sorted(a) && Sorted(b) && Nodes(a) == Nodes(b)
    ensures a == b
  {
    SortedIsDistinct(a);
    SortedIsDistinct(b);
    if a == [] {
      if b != [] { TableHas(b, OrdinalKey(), 0); }
    } else {
      TableHas(a, OrdinalKey(), |a| - 1);
      var k := TableOnly(b, OrdinalKey(), a[|a| - 1].ordinal);
      TableHas(b, OrdinalKey(), |b| - 1);
      var j := TableOnly(a, OrdinalKey(), b[|b| - 1].ordinal);
      assert a[|a| - 1] == b[|b| - 1];
      WithoutLast(a);
      WithoutLast(b);
      SortedIsUnique(a[..|a| - 1], b[..|b| - 1]);
    }
  }

  lemma WithoutLast(nodes: seq<NodeStatus>)
    requires nodes != [] && Sorted(nodes)
    ensures Nodes(nodes[..|nodes| - 1]) == Nodes(nodes) - {nodes[|nodes| - 1].ordinal}
  {
    var before, last := nodes[..|nodes| - 1], nodes[|nodes| - 1];
    TableMisses(before, OrdinalKey(), last.ordinal);
  }

  /** nodeStatusAtOrdinal. */
  method Find(nodes: seq<NodeStatus>, ordinal: nat) returns (found: Option<NodeStatus>)
    requires Sorted(nodes)
    ensures found == NodeAt(Nodes(nodes), ordinal)
  {
    SortedIsDistinct(nodes);
    for i := 0 to |nodes|
      invariant forall k :: 0 <= k < i ==> nodes[k].ordinal != ordinal
    {
      if nodes[i].ordinal == ordinal {
        TableHas(nodes, OrdinalKey(), i);
        return Some(nodes[i]);
      }
    }
    TableMisses(nodes, OrdinalKey(), ordinal);
    found := None;
  }

  /** hasUnterminatedPreviousProcess. */
  method HasUnterminated(previous: seq<NodeStatus>) returns (yes: bool)
    requires Distinct(previous, IdKey())
    ensures yes <==> HasUnterminatedPrevious(History(previous))
  {
    for i := 0 to |previous|
      invariant forall k :: 0 <= k < i ==> previous[k].termination.Some?
    {
      if previous[i].termination.None? {
        TableHas(previous, IdKey(), i);
        return true;
      }
    }
    forall id | id in History(previous) ensures History(previous)[id].termination.Some? {
      var k := TableOnly(previous, IdKey(), id);
    }
    yes := false;
  }

  // ---- replacing a current process ----

  /** `observed` in the place of the entry with its ordinal, or inserted where it belongs. */
  ghost predicate Replaced(a: seq<NodeStatus>, b: seq<NodeStatus>, observed: NodeStatus) {
    Sorted(b) && Nodes(b) == Nodes(a)[observed.ordinal := observed]
  }

  lemma {:induction false} TablesAgree<K>(list: seq<NodeStatus>, key: NodeStatus -> K, table: map<K, NodeStatus>)
    requires Distinct(list, key)
    requires forall k :: 0 <= k < |list| ==> key(list[k]) in table && table[key(list[k])] == list[k]
    requires forall x :: x in table ==> exists k :: 0 <= k < |list| && key(list[k]) == x
    ensures Table(list, key) == table
  {
    forall x | x in table ensures x in Table(list, key) && Table(list, key)[x] == table[x] {
      var k :| 0 <= k < |list| && key(list[k]) == x;
      TableHas(list, key, k);
    }
    forall x | x in Table(list, key) ensures x in table {
      var k := TableOnly(list, key, x);
    }
  }

  /** replaceNodeStatus: copy with the entry replaced or appended, then sort by ordinal. */
  method Replace(nodes: seq<NodeStatus>, observed: NodeStatus) returns (result: seq<NodeStatus>)
    requires Sorted(nodes)
    ensures Replaced(nodes, result, observed)
  {
    result := [];
    var replaced := false;
    for i := 0 to |nodes|
      invariant |result| == i && replaced == (exists k :: 0 <= k < i && nodes[k].ordinal == observed.ordinal)
      invariant forall k :: 0 <= k < i ==>
        result[k] == if nodes[k].ordinal == observed.ordinal then observed else nodes[k]
    {
      if nodes[i].ordinal == observed.ordinal {
        result := result + [observed];
        replaced := true;
      } else {
        result := result + [nodes[i]];
      }
    }
    if replaced {
      ReplacingEntry(nodes, result, observed);
    } else {
      assert result == nodes;
      result := InsertSorted(result, observed);
    }
  }

  lemma ReplacingEntry(nodes: seq<NodeStatus>, result: seq<NodeStatus>, observed: NodeStatus)
    requires Sorted(nodes) && |result| == |nodes|
    requires forall k :: 0 <= k < |nodes| ==>
      result[k] == if nodes[k].ordinal == observed.ordinal then observed else nodes[k]
    requires exists k :: 0 <= k < |nodes| && nodes[k].ordinal == observed.ordinal
    ensures Replaced(nodes, result, observed)
  {
    SortedIsDistinct(nodes);
    var f := (n: NodeStatus) => if n.ordinal == observed.ordinal then observed else n;
    assert Mapped(nodes, result, f);
    MappedTable(nodes, result, OrdinalKey(), f);
    var k :| 0 <= k < |nodes| && nodes[k].ordinal == observed.ordinal;
    TableHas(nodes, OrdinalKey(), k);
    forall x | x in Nodes(nodes) ensures Nodes(nodes)[x].ordinal == x {
      var j := TableOnly(nodes, OrdinalKey(), x);
    }
  }

  /** The sort of a sorted list with one more entry at its end. */
  method InsertSorted(nodes: seq<NodeStatus>, observed: NodeStatus) returns (result: seq<NodeStatus>)
    requires Sorted(nodes) && forall k :: 0 <= k < |nodes| ==> nodes[k].ordinal != observed.ordinal
    ensures Replaced(nodes, result, observed)
  {
    var i := |nodes|;
    while i > 0 && nodes[i - 1].ordinal > observed.ordinal
      invariant 0 <= i <= |nodes|
      invariant forall k :: i <= k < |nodes| ==> nodes[k].ordinal > observed.ordinal
    {
      i := i - 1;
    }
    result := nodes[..i] + [observed] + nodes[i..];
    InsertingEntry(nodes, result, observed, i);
  }

  ghost predicate Inserted(nodes: seq<NodeStatus>, result: seq<NodeStatus>, observed: NodeStatus, i: nat) {
    && |result| == |nodes| + 1 && i <= |nodes| && result[i] == observed
    && (forall k :: 0 <= k < i ==> result[k] == nodes[k])
    && forall k :: i <= k < |nodes| ==> result[k + 1] == nodes[k]
  }

  lemma InsertedIsSorted(nodes: seq<NodeStatus>, result: seq<NodeStatus>, observed: NodeStatus, i: nat)
    requires Sorted(nodes) && Inserted(nodes, result, observed, i)
    requires forall k :: 0 <= k < i ==> nodes[k].ordinal < observed.ordinal
    requires forall k :: i <= k < |nodes| ==> nodes[k].ordinal > observed.ordinal
    ensures Sorted(result)
  {
    forall j, k | 0 <= j < k < |result| ensures result[j].ordinal < result[k].ordinal {
      assert j > i ==> result[j] == nodes[j - 1];
      assert k > i ==> result[k] == nodes[k - 1];
    }
  }

  lemma InsertedIsListed(nodes: seq<NodeStatus>, result: seq<NodeStatus>, observed: NodeStatus, i: nat, k: nat)
    requires Sorted(nodes) && Inserted(nodes, result, observed, i) && k < |result|
    requires forall j :: 0 <= j < |nodes| ==> nodes[j].ordinal != observed.ordinal
    ensures
      var table := Nodes(nodes)[observed.ordinal := observed];
      result[k].ordinal in table && table[result[k].ordinal] == result[k]
  {
    hide Sorted;
    SortedIsDistinct(nodes);
    if k < i { TableHas(nodes, OrdinalKey(), k); }
    if k > i {
      assert result[k] == nodes[k - 1];
      TableHas(nodes, OrdinalKey(), k - 1);
    }
  }

  lemma ListedIsInserted(nodes: seq<NodeStatus>, result: seq<NodeStatus>, observed: NodeStatus, i: nat, x: nat)
    requires Inserted(nodes, result, observed, i) && (x in Nodes(nodes) || x == observed.ordinal)
    ensures exists k :: 0 <= k < |result| && OrdinalKey()(result[k]) == x
  {
    if x == observed.ordinal {
      assert OrdinalKey()(result[i]) == x;
    } else {
      var j := TableOnly(nodes, OrdinalKey(), x);
      assert OrdinalKey()(result[if j < i then j else j + 1]) == x;
    }
  }

  lemma InsertingEntry(nodes: seq<NodeStatus>, result: seq<NodeStatus>, observed: NodeStatus, i: nat)
    requires Sorted(nodes) && Inserted(nodes, result, observed, i)
    requires forall k :: 0 <= k < i ==> nodes[k].ordinal < observed.ordinal
    requires forall k :: i <= k < |nodes| ==> nodes[k].ordinal > observed.ordinal
    ensures Replaced(nodes, result, observed)
  {
    InsertedIsSorted(nodes, result, observed, i);
    SortedIsDistinct(result);
    var table := Nodes(nodes)[observed.ordinal := observed];
    forall k: nat | k < |result| ensures result[k].ordinal in table && table[result[k].ordinal] == result[k] {
      InsertedIsListed(nodes, result, observed, i, k);
    }
    forall x | x in table ensures exists k :: 0 <= k < |result| && OrdinalKey()(result[k]) == x {
      ListedIsInserted(nodes, result, observed, i, x);
    }
    TablesAgree<nat>(result, OrdinalKey(), table);
    assert Nodes(result) == table;
  }

  // ---- the history ----

  /** appendPreviousProcess: in the place of the same process, or at the end. */
  method Append(previous: seq<NodeStatus>, process: NodeStatus) returns (result: seq<NodeStatus>)
    requires Distinct(previous, IdKey())
    requires forall k :: 0 <= k < |previous| && previous[k].id == process.id ==> previous[k].ordinal == process.ordinal
    ensures Distinct(result, IdKey()) && History(result) == History(previous)[process.id := process]
  {
    for i := 0 to |previous|
      invariant forall k :: 0 <= k < i ==> previous[k].id != process.id
    {
      if SameProcess(previous[i], process) {
        result := previous[i := process];
        OverwritingEntry(previous, i, process);
        return;
      }
    }
    result := previous + [process];
    assert result[..|result| - 1] == previous;
  }

  lemma OverwritingEntry(previous: seq<NodeStatus>, i: nat, process: NodeStatus)
    requires Distinct(previous, IdKey()) && i < |previous| && previous[i].id == process.id
    ensures Distinct(previous[i := process], IdKey())
    ensures History(previous[i := process]) == History(previous)[process.id := process]
  {
    var result := previous[i := process];
    var table := History(previous)[process.id := process];
    forall k | 0 <= k < |result| ensures IdKey()(result[k]) in table && table[IdKey()(result[k])] == result[k] {
      if k != i { TableHas(previous, IdKey(), k); }
    }
    forall x | x in table ensures exists k :: 0 <= k < |result| && IdKey()(result[k]) == x {
      if x == process.id {
        assert IdKey()(result[i]) == x;
      } else {
        var j := TableOnly(previous, IdKey(), x);
        assert IdKey()(result[j]) == x;
      }
    }
    TablesAgree(result, IdKey(), table);
  }
}
