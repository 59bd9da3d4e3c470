/** The node that hands out IDs. It handles one request at a time. */
module Sequencer {

  datatype NodeType = SERVER | CLIENT

  datatype NodeEntry = NodeEntry(ip: string, name: string, nodeId: nat, nodeType: NodeType)

  datatype Lookup = Found(entry: NodeEntry) | NotFound

  /** IDs are the positions of the entries, so no two nodes ever have the same. */
  ghost predicate Numbered(entries: seq<NodeEntry>) {
    forall i :: 0 <= i < |entries| ==> entries[i].nodeId == i
  }

  /** The latest server registered with an address. */
  function LatestServer(entries: seq<NodeEntry>, ip: string): Lookup {
    if entries == [] then NotFound
    else
      var last := entries[|entries| - 1];
      if last.nodeType == SERVER && last.ip == ip then Found(last) else LatestServer(entries[..|entries| - 1], ip)
  }

  predicate Serves(e: NodeEntry, ip: string) { e.nodeType == SERVER && e.ip == ip }

  ghost predicate LastAt(entries: seq<NodeEntry>, ip: string, i: nat) {
    i < |entries| && Serves(entries[i], ip) && forall j :: i < j < |entries| ==> !Serves(entries[j], ip)
  }

  lemma {:induction false} LatestServerIs(entries: seq<NodeEntry>, ip: string)
    ensures match LatestServer(entries, ip)
            case NotFound => forall i :: 0 <= i < |entries| ==> !Serves(entries[i], ip)
            case Found(e) => exists i: nat :: LastAt(entries, ip, i) && entries[i] == e
  {
    if entries != [] {
      var n := |entries| - 1;
      LatestServerIs(entries[..n], ip);
      assert forall i :: 0 <= i < n ==> entries[..n][i] == entries[i];
      if Serves(entries[n], ip) {
        assert LastAt(entries, ip, n);
      } else if i: nat :| LastAt(entries[..n], ip, i) && Found(entries[i]) == LatestServer(entries[..n], ip) {
        assert LastAt(entries, ip, i);
      }
    }
  }

  /** What the map answers for an address. */
  function Mapped(entries: seq<NodeEntry>, mapping: map<string, nat>, ip: string): Lookup {
    if ip in mapping && mapping[ip] < |entries| then Found(entries[mapping[ip]]) else NotFound
  }

  class NodeIDSequencer {
    var m_entries: seq<NodeEntry>
    var m_ipPortToNodeIDMapping: map<string, nat>
    var m_nextNodeID: nat

    /** The map names the latest server of every address; indexing the entries with it is safe. */
    ghost predicate Valid()
      reads this
    {
      && Numbered(m_entries)
      && m_nextNodeID == |m_entries|
      && (forall ip: string :: LatestServer(m_entries, ip) == Mapped(m_entries, m_ipPortToNodeIDMapping, ip))
      && forall ip :: ip in m_ipPortToNodeIDMapping ==> m_ipPortToNodeIDMapping[ip] < |m_entries|
    }

    constructor ()
      ensures Valid() && m_entries == []
    {
      m_entries := [];
      m_ipPortToNodeIDMapping := map[];
      m_nextNodeID := 0;
    }

    method GetNextNodeID() returns (id: nat)
      modifies this`m_nextNodeID
      ensures id == old(m_nextNodeID) && m_nextNodeID == id + 1
    {
      id := m_nextNodeID;
      m_nextNodeID := m_nextNodeID + 1;
    }

    /** A node registers and gets an ID nobody has had before. */
    method HandleNodeIDRequest(ip: string, name: string, nodeType: NodeType) returns (id: nat)
      requires Valid()
      modifies this
      ensures Valid() && m_entries == old(m_entries) + [NodeEntry(ip, name, id, nodeType)]
      ensures forall e :: e in old(m_entries) ==> e.nodeId < id
    {
      ghost var before := m_entries;
      id := GetNextNodeID();
      var entry := NodeEntry(ip, name, id, nodeType);
      m_entries := m_entries + [entry];
      if nodeType == SERVER {
        m_ipPortToNodeIDMapping := m_ipPortToNodeIDMapping[ip := id];
      }
      assert m_entries[..|before|] == before;
    }

    method HandleGetAllNodeIDsRequest() returns (entries: seq<NodeEntry>)
      ensures entries == m_entries
    {
      entries := [];
      for i := 0 to |m_entries|
        invariant entries == m_entries[..i]
      {
        entries := entries + [m_entries[i]];
      }
    }

    /** Looking up an address; what is returned has that address, which connect checks. */
    method HandleGetNodeIDForIpPortRequest(ipPort: string) returns (res: Lookup)
      requires Valid()
      ensures res == LatestServer(m_entries, ipPort)
      ensures res.Found? ==> res.entry.ip == ipPort && res.entry in m_entries
    {
      LatestServerIs(m_entries, ipPort);
      if ipPort in m_ipPortToNodeIDMapping {
        var nodeId := m_ipPortToNodeIDMapping[ipPort];
        var entry := m_entries[nodeId];
        res := Found(entry);
      } else {
        res := NotFound;
      }
    }
  }
}
