/**
 * The node directory read by the web handler: registry nodes, the registry
 * services (one per name and version) that list them, and the api service
 * a route resolves to.
 */
module Registry {

  /** `registry.Node`: one backend instance, reachable at `address` ("host:port"). */
  datatype Node = Node(id: string, address: string, metadata: map<string, string>)

  /** `registry.Service`: one version of a service and its nodes, in order. */
  datatype Entry = Entry(name: string, version: string, nodes: seq<Node>)

  /** `api.Service`: what a route yields; `services` are its registry entries. */
  datatype ApiService = ApiService(name: string, services: seq<Entry>)

  /** The nodes of every entry, concatenated in entry order. */
  function Flatten(entries: seq<Entry>): seq<Node>
  {
    if entries == [] then [] else entries[0].nodes + Flatten(entries[1..])
  }

  /** Appending an entry appends its nodes: the step of an `append` loop. */
  lemma {:induction false} FlattenSnoc(entries: seq<Entry>, e: Entry)
    ensures Flatten(entries + [e]) == Flatten(entries) + e.nodes
  {
    if entries == [] {
      assert [e][1..] == [];
    } else {
      assert (entries + [e])[1..] == entries[1..] + [e];
      FlattenSnoc(entries[1..], e);
    }
  }

  /** The candidate list holds exactly the nodes of the entries, and no others. */
  lemma {:induction false} FlattenMembers(entries: seq<Entry>, n: Node)
    ensures n in Flatten(entries) <==> exists i :: 0 <= i < |entries| && n in entries[i].nodes
  {
    if entries != [] {
      FlattenMembers(entries[1..], n);
      if n in Flatten(entries[1..]) {
        var i :| 0 <= i < |entries[1..]| && n in entries[1..][i].nodes;
        assert n in entries[i + 1].nodes;
      }
      if exists i :: 0 <= i < |entries| && n in entries[i].nodes {
        var i :| 0 <= i < |entries| && n in entries[i].nodes;
        if i > 0 {
          assert n in entries[1..][i - 1].nodes;
        }
      }
    }
  }

  /** The number of candidates is the sum of the entries' node counts. */
  function NodeCount(entries: seq<Entry>): nat
  {
    if entries == [] then 0 else |entries[0].nodes| + NodeCount(entries[1..])
  }

  lemma {:induction false} FlattenLength(entries: seq<Entry>)
    ensures |Flatten(entries)| == NodeCount(entries)
    ensures Flatten(entries) == [] <==> forall i :: 0 <= i < |entries| ==> entries[i].nodes == []
  {
    if entries != [] {
      FlattenLength(entries[1..]);
      assert forall i :: 1 <= i < |entries| ==> entries[i] == entries[1..][i - 1];
    }
  }
}
