/**
 * The node state-change detector of the network graph
 * (frontend/src/components/NetworkGraph.tsx, the effect at lines 23-37): for
 * each new graph snapshot it compares every node's state with the last state
 * recorded for its id, records the new one, and publishes the ids that
 * changed. The three-second timer that clears the published set afterwards
 * is not part of this model.
 */
module NetworkGraph {
  import opened Base

  /** A snapshot node as the detector reads it: id and state text. */
  datatype NodeState = NodeState(id: string, state: string)

  /**
   * `prevStates` is a plain object literal, so a lookup of a name it does not
   * own falls through to `Object.prototype`. These are the names found there;
   * each one reads as a function, or for `__proto__` as the prototype object,
   * which is truthy and never equal to a state text.
   */
  const InheritedNames: set<string> := {
    "constructor", "hasOwnProperty", "isPrototypeOf", "propertyIsEnumerable",
    "toString", "toLocaleString", "valueOf", "__defineGetter__",
    "__defineSetter__", "__lookupGetter__", "__lookupSetter__", "__proto__"
  }

  /** Assigning a string to this name goes to the prototype setter, which ignores it. */
  const ProtoName: string := "__proto__"

  /** What `prevStates.current[id]` reads: an own text, an inherited member, or `undefined`. */
  datatype Previous = Own(text: string) | Inherited | Missing

  function PrevOf(prev: map<string, string>, id: string): Previous {
    if id == ProtoName then Inherited
    else if id in prev then Own(prev[id])
    else if id in InheritedNames then Inherited
    else Missing
  }

  /** `prev && prev !== node.state`: a non-empty different text, or any inherited member. */
  predicate Marks(p: Previous, state: string) {
    match p
    case Own(t) => t != "" && t != state
    case Inherited => true
    case Missing => false
  }

  /**
   * The recorded states after a snapshot's loop: a later node overwrites an
   * earlier one, and a write to `__proto__` changes nothing.
   */
  function Recorded(prev: map<string, string>, nodes: seq<NodeState>): map<string, string>
    decreases |nodes|
  {
    if nodes == [] then prev
    else
      var n := nodes[|nodes| - 1];
      var before := Recorded(prev, nodes[..|nodes| - 1]);
      if n.id == ProtoName then before else before[n.id := n.state]
  }

  /** The ids the loop marks: a node is marked when what it reads for its id `Marks` its state. */
  function Changed(prev: map<string, string>, nodes: seq<NodeState>): set<string>
    decreases |nodes|
  {
    if nodes == [] then {}
    else
      var before := Recorded(prev, nodes[..|nodes| - 1]);
      var n := nodes[|nodes| - 1];
      Changed(prev, nodes[..|nodes| - 1]) +
        (if Marks(PrevOf(before, n.id), n.state) then {n.id} else {})
  }

  predicate DistinctIds(nodes: seq<NodeState>) {
    forall i, j :: 0 <= i < j < |nodes| ==> nodes[i].id != nodes[j].id
  }

  /**
   * An id is recorded after the snapshot when it was before or when a node
   * carries it, except `__proto__`, which no node can add.
   */
  lemma {:induction false} RecordedDomain(prev: map<string, string>, nodes: seq<NodeState>, id: string)
    ensures id in Recorded(prev, nodes) <==>
      id in prev || (id != ProtoName && exists i :: 0 <= i < |nodes| && nodes[i].id == id)
    decreases |nodes|
  {
    if nodes != [] {
      var init := nodes[..|nodes| - 1];
      RecordedDomain(prev, init, id);
      if exists i :: 0 <= i < |init| && init[i].id == id {
        var i :| 0 <= i < |init| && init[i].id == id;
        assert nodes[i] == init[i];
      }
      if exists i :: 0 <= i < |nodes| && nodes[i].id == id {
        var i :| 0 <= i < |nodes| && nodes[i].id == id;
        if i < |init| { assert init[i] == nodes[i]; }
      }
    }
  }

  /** An id other than `__proto__` carried by a node ends with the state of its last node. */
  lemma {:induction false} RecordedLast(prev: map<string, string>, nodes: seq<NodeState>, i: int)
    requires 0 <= i < |nodes| && forall j :: i < j < |nodes| ==> nodes[j].id != nodes[i].id
    ensures nodes[i].id != ProtoName ==>
      nodes[i].id in Recorded(prev, nodes) && Recorded(prev, nodes)[nodes[i].id] == nodes[i].state
    decreases |nodes|
  {
    if i < |nodes| - 1 {
      var init := nodes[..|nodes| - 1];
      forall j | i < j < |init| ensures init[j].id != init[i].id {
        assert init[j] == nodes[j];
      }
      RecordedLast(prev, init, i);
    }
  }

  /** An id no node carries, and `__proto__` whatever the nodes, keeps its old entry or its absence. */
  lemma {:induction false} RecordedUntouched(prev: map<string, string>, nodes: seq<NodeState>, id: string)
    requires id == ProtoName || forall i :: 0 <= i < |nodes| ==> nodes[i].id != id
    ensures id in Recorded(prev, nodes) <==> id in prev
    ensures id in prev ==> Recorded(prev, nodes)[id] == prev[id]
    decreases |nodes|
  {
    if nodes != [] {
      var init := nodes[..|nodes| - 1];
      forall i | 0 <= i < |init| ensures id == ProtoName || init[i].id != id {
        assert init[i] == nodes[i];
      }
      RecordedUntouched(prev, init, id);
    }
  }

  /** Only ids of the snapshot are ever marked. */
  lemma {:induction false} ChangedInSnapshot(prev: map<string, string>, nodes: seq<NodeState>, id: string)
    ensures id in Changed(prev, nodes) ==> exists i :: 0 <= i < |nodes| && nodes[i].id == id
    decreases |nodes|
  {
    if nodes != [] {
      var init := nodes[..|nodes| - 1];
      ChangedInSnapshot(prev, init, id);
      if id in Changed(prev, init) {
        var i :| 0 <= i < |init| && init[i].id == id;
        assert nodes[i] == init[i];
      }
    }
  }

  /**
   * For a snapshot with one node per id, an id is marked exactly when its node
   * carries it and what `prevStates` held for it before the snapshot `Marks`
   * the node's state.
   */
  lemma {:induction false} ChangedExactly(prev: map<string, string>, nodes: seq<NodeState>, id: string)
    requires DistinctIds(nodes)
    ensures id in Changed(prev, nodes) <==>
      exists i :: 0 <= i < |nodes| && nodes[i].id == id && Marks(PrevOf(prev, id), nodes[i].state)
    decreases |nodes|
  {
    if nodes != [] {
      var init := nodes[..|nodes| - 1];
      var n := nodes[|nodes| - 1];
      assert DistinctIds(init);
      ChangedExactly(prev, init, id);
      forall i | 0 <= i < |init| ensures init[i].id != n.id {
        assert init[i] == nodes[i];
      }
      RecordedUntouched(prev, init, n.id);
      assert PrevOf(Recorded(prev, init), n.id) == PrevOf(prev, n.id);
      if exists i :: 0 <= i < |init| && init[i].id == id && Marks(PrevOf(prev, id), init[i].state) {
        var i :| 0 <= i < |init| && init[i].id == id && Marks(PrevOf(prev, id), init[i].state);
        assert nodes[i] == init[i];
      }
      if exists i :: 0 <= i < |nodes| && nodes[i].id == id && Marks(PrevOf(prev, id), nodes[i].state) {
        var i :| 0 <= i < |nodes| && nodes[i].id == id && Marks(PrevOf(prev, id), nodes[i].state);
        if i < |init| { assert init[i] == nodes[i]; }
      }
    }
  }

  /**
   * A node whose id `prevStates` does not own is marked exactly when the id
   * names an `Object.prototype` member: an ordinary first sighting is never
   * marked, while one of `constructor`, `toString`, `__proto__`, ... always is.
   */
  lemma FirstSighting(prev: map<string, string>, nodes: seq<NodeState>, i: int)
    requires DistinctIds(nodes) && 0 <= i < |nodes| && nodes[i].id !in prev
    ensures nodes[i].id in Changed(prev, nodes) <==> nodes[i].id in InheritedNames
  {
    ChangedExactly(prev, nodes, nodes[i].id);
  }

  /**
   * Feeding the same snapshot (one node per id) twice in a row marks nothing
   * the second time, except a `__proto__` node: its write was dropped, so it
   * is marked again.
   */
  lemma SameSnapshotTwice(prev: map<string, string>, nodes: seq<NodeState>)
    requires DistinctIds(nodes)
    ensures Changed(Recorded(prev, nodes), nodes) ==
      if exists i :: 0 <= i < |nodes| && nodes[i].id == ProtoName then {ProtoName} else {}
  {
    var after := Recorded(prev, nodes);
    forall id | id in Changed(after, nodes) ensures id == ProtoName && exists i :: 0 <= i < |nodes| && nodes[i].id == ProtoName {
      ChangedExactly(after, nodes, id);
      var i :| 0 <= i < |nodes| && nodes[i].id == id && Marks(PrevOf(after, id), nodes[i].state);
      RecordedLast(prev, nodes, i);
    }
    if exists i :: 0 <= i < |nodes| && nodes[i].id == ProtoName {
      ChangedExactly(after, nodes, ProtoName);
    }
  }

  /** The component's `prevStates` ref and `changedNodes` state. */
  class ChangeTracker {
    var prevStates: map<string, string>
    var changedNodes: set<string>

    constructor()
      ensures prevStates == map[] && changedNodes == {}
    {
      prevStates := map[];
      changedNodes := {};
    }

    /**
     * The effect run for a new `data` value: nothing for a null snapshot;
     * otherwise every node's state is recorded (a `__proto__` write is
     * ignored), and the marked ids replace the published set only when there
     * are some.
     */
    method OnData(data: Option<seq<NodeState>>)
      modifies this
      ensures data.None? ==> prevStates == old(prevStates) && changedNodes == old(changedNodes)
      ensures data.Some? ==> prevStates == Recorded(old(prevStates), data.value)
      ensures data.Some? ==>
        var marked := Changed(old(prevStates), data.value);
        changedNodes == if |marked| > 0 then marked else old(changedNodes)
    {
      if data.None? {
        return;
      }
      var nodes := data.value;
      ghost var start := prevStates;
      var newChanged: set<string> := {};
      for i := 0 to |nodes|
        invariant prevStates == Recorded(start, nodes[..i])
        invariant newChanged == Changed(start, nodes[..i])
        invariant changedNodes == old(changedNodes)
      {
        assert nodes[..i + 1][..i] == nodes[..i];
        var node := nodes[i];
        if node.id == ProtoName {
          newChanged := newChanged + {node.id};
        } else if node.id in prevStates {
          var prev := prevStates[node.id];
          if prev != "" && prev != node.state {
            newChanged := newChanged + {node.id};
          }
          prevStates := prevStates[node.id := node.state];
        } else {
          if node.id in InheritedNames {
            newChanged := newChanged + {node.id};
          }
          prevStates := prevStates[node.id := node.state];
        }
      }
      assert nodes[..|nodes|] == nodes;
      if |newChanged| > 0 {
        changedNodes := newChanged;
      }
    }
  }
}
