/**
 * The network-map crawl: what one MAP_NETWORK reply does to the topology and
 * which messages it emits, and what a run of replies does to the set of
 * outstanding mapping requests.
 */
module P2PNetworkMap {
  import opened P2PTypes
  import opened P2PDecisions

  const MappingReason := "MAPPING connection"
  /** Below this many mapped nodes a reply still fans out to the addresses it reports. */
  const NetworkMapCap := 1000
  const PrintMapTimeout := 29000

  /** One P2P_CONNECT with the mapping reason per address, in order. */
  function ConnectAll(addrs: seq<Address>): (out: seq<Msg>)
    ensures |out| == |addrs|
    ensures forall i :: 0 <= i < |addrs| ==> out[i] == Connect(addrs[i], MappingReason)
  {
    if addrs == [] then [] else ConnectAll(addrs[..|addrs| - 1]) + [Connect(addrs[|addrs| - 1], MappingReason)]
  }

  /** The CONNECTs go to exactly the listed addresses. */
  lemma ConnectAllTargets(addrs: seq<Address>)
    ensures forall a :: Connect(a, MappingReason) in ConnectAll(addrs) <==> a in addrs
  {
    var out := ConnectAll(addrs);
    forall a | Connect(a, MappingReason) in out ensures a in addrs {
      var k :| 0 <= k < |out| && out[k] == Connect(a, MappingReason);
      assert addrs[k] == a;
    }
    forall a | a in addrs ensures Connect(a, MappingReason) in out {
      var k :| 0 <= k < |addrs| && addrs[k] == a;
      assert out[k] == Connect(a, MappingReason);
    }
  }

  /** A list without repetitions is connected to once per address. */
  lemma ConnectAllOnce(addrs: seq<Address>)
    requires NoDuplicates(addrs)
    ensures forall i, j :: 0 <= i < j < |ConnectAll(addrs)| ==> ConnectAll(addrs)[i] != ConnectAll(addrs)[j]
  {
  }

  /** `cdm` with every address of `addrs` tagged MAPPING, one after the other. */
  function TagAll(cdm: map<Address, ConnectionDetails>, addrs: seq<Address>): map<Address, ConnectionDetails>
    decreases |addrs|
  {
    if addrs == [] then cdm
    else TagAll(cdm, addrs[..|addrs| - 1])[addrs[|addrs| - 1] := ConnectionDetails(Mapping)]
  }

  /** Tagging adds exactly the tagged addresses, marks each MAPPING, and keeps every other reason. */
  lemma {:induction false} TagAllTags(cdm: map<Address, ConnectionDetails>, addrs: seq<Address>)
    ensures forall a :: a in TagAll(cdm, addrs) <==> a in cdm || a in addrs
    ensures forall a :: a in addrs ==> TagAll(cdm, addrs)[a] == ConnectionDetails(Mapping)
    ensures forall a :: a in cdm && a !in addrs ==> TagAll(cdm, addrs)[a] == cdm[a]
    decreases |addrs|
  {
    if addrs != [] {
      var init := addrs[..|addrs| - 1];
      assert addrs == init + [addrs[|addrs| - 1]];
      TagAllTags(cdm, init);
    }
  }

  /** `order` lists every element of `s` exactly once. */
  ghost predicate IsEnumeration(order: seq<Address>, s: set<Address>)
  {
    NoDuplicates(order) && (forall a :: a in order <==> a in s)
  }

  lemma EnumerationLength(order: seq<Address>, s: set<Address>)
    requires IsEnumeration(order, s)
    ensures |order| == |s|
  {
    EnumerationLengthAux(order, s);
  }

  lemma {:induction false} EnumerationLengthAux(order: seq<Address>, s: set<Address>)
    requires IsEnumeration(order, s)
    ensures |order| == |s|
  {
    if order != [] {
      var rest := order[1..];
      assert order == [order[0]] + rest;
      assert IsEnumeration(rest, s - {order[0]}) by {
        forall a ensures a in rest <==> a in s - {order[0]} {
          if a in rest {
            var k :| 0 <= k < |rest| && rest[k] == a;
            assert order[k + 1] == a;
          }
          if a in s - {order[0]} {
            var k :| 0 <= k < |order| && order[k] == a;
            assert k != 0;
            assert rest[k - 1] == a;
          }
        }
      }
      EnumerationLengthAux(rest, s - {order[0]});
    } else {
      assert forall a :: a !in s;
      assert s == {};
    }
  }

  /** The two topologies agree on everything but the crawl's three maps and sets. */
  predicate SameLinks(t: Topology, t': Topology)
  {
    && t'.selfAddress == t.selfAddress
    && t'.outLinks == t.outLinks
    && t'.inLinks == t.inLinks
    && t'.clientLinks == t.clientLinks
    && t'.randomNodeSet == t.randomNodeSet
    && t'.rendezvousComplete == t.rendezvousComplete
    && t'.numLinks == t.numLinks
  }

  /** A reply stored: its report is in the map and its reporter no longer outstanding. */
  function StoreReport(t: Topology, report: NetworkMap): (r: Topology)
    ensures r.networkMap.Keys == t.networkMap.Keys + {report.nodeAddress}
    ensures r.networkMap[report.nodeAddress] == report
    ensures forall a :: a in t.networkMap && a != report.nodeAddress ==> r.networkMap[a] == t.networkMap[a]
    ensures report.nodeAddress !in r.activeMappingRequests
    ensures r.activeMappingRequests + {report.nodeAddress} == t.activeMappingRequests + {report.nodeAddress}
    ensures r == t.(networkMap := r.networkMap, activeMappingRequests := r.activeMappingRequests)
  {
    t.(networkMap := t.networkMap[report.nodeAddress := report],
       activeMappingRequests := t.activeMappingRequests - {report.nodeAddress})
  }

  /** The addresses a reply fans out to, once it is stored: none when 1000 or more nodes are mapped. */
  function FanOutTargets(stored: Topology, report: NetworkMap): (r: seq<Address>)
    ensures |stored.networkMap| >= NetworkMapCap ==> r == []
    ensures |stored.networkMap| < NetworkMapCap ==> r == MappingCandidates(report.addresses, stored.networkMap.Keys)
  {
    var candidates := MappingCandidates(report.addresses, stored.networkMap.Keys);
    if |stored.networkMap| < NetworkMapCap && candidates != [] then candidates else []
  }

  /** The crawl-complete response, posted once no mapping request is outstanding. */
  function CompletionSignal(stored: Topology): (r: seq<Msg>)
    ensures r == [] <==> stored.activeMappingRequests != {}
    ensures r != [] ==> r == [PrintMapResponse]
  {
    if stored.activeMappingRequests == {} then [PrintMapResponse] else []
  }

  /**
   * One MAP_NETWORK reply from `report.nodeAddress`: the report is stored, the
   * reporter's request is no longer outstanding, the reported addresses that are
   * still unmapped are tagged MAPPING and connected to while the map is under its
   * cap, and the crawl-complete response is posted once no request is outstanding.
   */
  function MapNetworkStep(t: Topology, report: NetworkMap): (r: Step)
    ensures report.nodeAddress in r.state.networkMap && r.state.networkMap[report.nodeAddress] == report
    ensures r.state.activeMappingRequests == t.activeMappingRequests - {report.nodeAddress}
    ensures report.nodeAddress in t.activeMappingRequests ==>
              |r.state.activeMappingRequests| == |t.activeMappingRequests| - 1
    ensures SameLinks(t, r.state)
  {
    var stored := StoreReport(t, report);
    var targets := FanOutTargets(stored, report);
    Step(stored.(connectionDetailsMap := TagAll(stored.connectionDetailsMap, targets)),
         ConnectAll(targets) + CompletionSignal(stored))
  }

  /** A reply leaves every other entry of the network map as it was. */
  lemma MapStepKeepsOtherEntries(t: Topology, report: NetworkMap)
    ensures MapNetworkStep(t, report).state.networkMap.Keys == t.networkMap.Keys + {report.nodeAddress}
    ensures forall a :: a in t.networkMap && a != report.nodeAddress ==>
              MapNetworkStep(t, report).state.networkMap[a] == t.networkMap[a]
  {
  }

  /**
   * The messages of a reply: one mapping CONNECT per fanned-out address, then possibly
   * the crawl-complete response, which is never followed by anything.
   */
  lemma MapStepParts(t: Topology, report: NetworkMap)
    ensures var r := MapNetworkStep(t, report);
            forall i :: 0 <= i < |r.out| && !r.out[i].Connect? ==> i == |r.out| - 1 && r.out[i] == PrintMapResponse
    ensures var r := MapNetworkStep(t, report);
            forall i :: 0 <= i < |r.out| && r.out[i].Connect? ==> r.out[i].reason == MappingReason
    ensures |MapNetworkStep(t, report).out| <= |report.addresses| + 1
  {
    var stored := StoreReport(t, report);
    var connects := ConnectAll(FanOutTargets(stored, report));
    var r := MapNetworkStep(t, report);
    assert r.out == connects + CompletionSignal(stored);
    forall i | 0 <= i < |r.out|
      ensures !r.out[i].Connect? ==> i == |r.out| - 1 && r.out[i] == PrintMapResponse
      ensures r.out[i].Connect? ==> r.out[i].reason == MappingReason
    {
      if i < |connects| {
        assert r.out[i] == connects[i];
      }
    }
  }

  /**
   * A reply connects to exactly the reported addresses that are not yet mapped, and
   * only while fewer than 1000 nodes are mapped.
   */
  lemma MapStepFanOutTargets(t: Topology, report: NetworkMap)
    ensures var r := MapNetworkStep(t, report);
            forall a :: Connect(a, MappingReason) in r.out <==>
              a in report.addresses && a !in r.state.networkMap && |r.state.networkMap| < NetworkMapCap
  {
    var stored := StoreReport(t, report);
    var targets := FanOutTargets(stored, report);
    var connects := ConnectAll(targets);
    var r := MapNetworkStep(t, report);
    assert r.out == connects + CompletionSignal(stored);
    ConnectAllTargets(targets);
    forall a ensures Connect(a, MappingReason) in r.out <==> Connect(a, MappingReason) in connects {
    }
  }

  /** A reply connects to each address at most once. */
  lemma MapStepConnectsOnce(t: Topology, report: NetworkMap)
    ensures var r := MapNetworkStep(t, report);
            forall i, j :: 0 <= i < j < |r.out| && r.out[i].Connect? ==> r.out[i] != r.out[j]
  {
    var stored := StoreReport(t, report);
    var targets := FanOutTargets(stored, report);
    var connects := ConnectAll(targets);
    var r := MapNetworkStep(t, report);
    assert r.out == connects + CompletionSignal(stored);
    forall i, j | 0 <= i < j < |r.out| && r.out[i].Connect?
      ensures r.out[i] != r.out[j]
    {
      assert i < |connects|;
      if j < |connects| {
        assert targets[i] != targets[j];
      }
    }
  }

  /** A reply connects to the addresses in the order in which the report first lists them. */
  lemma MapStepConnectsInReportOrder(t: Topology, report: NetworkMap)
    ensures var r := MapNetworkStep(t, report);
            forall i, j :: 0 <= i < j < |r.out| && r.out[j].Connect? ==>
              && r.out[i].Connect?
              && r.out[i].address in report.addresses && r.out[j].address in report.addresses
              && FirstIndex(report.addresses, r.out[i].address) < FirstIndex(report.addresses, r.out[j].address)
  {
    var stored := StoreReport(t, report);
    var targets := FanOutTargets(stored, report);
    var connects := ConnectAll(targets);
    var r := MapNetworkStep(t, report);
    assert r.out == connects + CompletionSignal(stored);
    MappingCandidatesInReportOrder(report.addresses, stored.networkMap.Keys);
    forall i, j | 0 <= i < j < |r.out| && r.out[j].Connect?
      ensures && r.out[i].Connect?
              && r.out[i].address in report.addresses && r.out[j].address in report.addresses
              && FirstIndex(report.addresses, r.out[i].address) < FirstIndex(report.addresses, r.out[j].address)
    {
      assert j < |connects|;
      assert r.out[i] == Connect(targets[i], MappingReason) && r.out[j] == Connect(targets[j], MappingReason);
    }
  }

  /** A reply tags MAPPING exactly the addresses it connects to and keeps every other reason. */
  lemma MapStepTags(t: Topology, report: NetworkMap)
    ensures var r := MapNetworkStep(t, report);
            forall a :: a in r.state.connectionDetailsMap <==>
              a in t.connectionDetailsMap || Connect(a, MappingReason) in r.out
    ensures var r := MapNetworkStep(t, report);
            forall a :: a in r.state.connectionDetailsMap ==>
              r.state.connectionDetailsMap[a] ==
                if Connect(a, MappingReason) in r.out then ConnectionDetails(Mapping) else t.connectionDetailsMap[a]
  {
    MapStepFanOutTargets(t, report);
    var stored := StoreReport(t, report);
    TagAllTags(t.connectionDetailsMap, FanOutTargets(stored, report));
    ConnectAllTargets(FanOutTargets(stored, report));
  }

  /** A reply posts the crawl-complete response if and only if no request is then outstanding. */
  lemma MapStepCompletion(t: Topology, report: NetworkMap)
    ensures var r := MapNetworkStep(t, report);
            PrintMapResponse in r.out <==> r.state.activeMappingRequests == {}
  {
    var stored := StoreReport(t, report);
    var connects := ConnectAll(FanOutTargets(stored, report));
    var r := MapNetworkStep(t, report);
    assert r.out == connects + CompletionSignal(stored);
    assert PrintMapResponse !in connects;
  }

  /** The reporters of a run of replies. */
  function Reporters(reports: seq<NetworkMap>): set<Address>
  {
    if reports == [] then {} else {reports[0].nodeAddress} + Reporters(reports[1..])
  }

  /** A run of MAP_NETWORK replies, processed in order; the emitted messages are concatenated. */
  function MapNetworkRun(t: Topology, reports: seq<NetworkMap>): Step
    decreases |reports|
  {
    if reports == [] then Step(t, [])
    else
      var first := MapNetworkStep(t, reports[0]);
      var rest := MapNetworkRun(first.state, reports[1..]);
      Step(rest.state, first.out + rest.out)
  }

  /** After a run of replies, exactly the reporters' requests are no longer outstanding. */
  lemma {:induction false} RunWithdrawsReporters(t: Topology, reports: seq<NetworkMap>)
    ensures MapNetworkRun(t, reports).state.activeMappingRequests == t.activeMappingRequests - Reporters(reports)
    decreases |reports|
  {
    if reports != [] {
      var first := MapNetworkStep(t, reports[0]);
      RunWithdrawsReporters(first.state, reports[1..]);
      assert MapNetworkRun(t, reports).state == MapNetworkRun(first.state, reports[1..]).state;
    }
  }

  /** After a run of replies, every reporter is a key of the network map, and nothing else was added. */
  lemma {:induction false} RunMapsReporters(t: Topology, reports: seq<NetworkMap>)
    ensures MapNetworkRun(t, reports).state.networkMap.Keys == t.networkMap.Keys + Reporters(reports)
    decreases |reports|
  {
    if reports != [] {
      var first := MapNetworkStep(t, reports[0]);
      MapStepKeepsOtherEntries(t, reports[0]);
      var mapped := first.state.networkMap.Keys;
      assert mapped == t.networkMap.Keys + {reports[0].nodeAddress};
      RunMapsReporters(first.state, reports[1..]);
      assert MapNetworkRun(t, reports).state.networkMap.Keys == mapped + Reporters(reports[1..]);
    }
  }

  /**
   * Once every outstanding request has been answered the crawl is complete: no
   * request is outstanding and the run has posted the crawl-complete response.
   */
  lemma {:induction false} CrawlCompletesWhenAllReply(t: Topology, reports: seq<NetworkMap>)
    requires reports != []
    requires t.activeMappingRequests <= Reporters(reports)
    ensures MapNetworkRun(t, reports).state.activeMappingRequests == {}
    ensures PrintMapResponse in MapNetworkRun(t, reports).out
    decreases |reports|
  {
    RunWithdrawsReporters(t, reports);
    var first := MapNetworkStep(t, reports[0]);
    if reports[1..] == [] {
      MapStepCompletion(t, reports[0]);
    } else {
      CrawlCompletesWhenAllReply(first.state, reports[1..]);
    }
  }

  /** The map is not capped: a new reporter adds an entry even when 1000 are mapped. */
  lemma MapGrowsPastCap(t: Topology, report: NetworkMap)
    requires |t.networkMap| >= NetworkMapCap && report.nodeAddress !in t.networkMap
    ensures |MapNetworkStep(t, report).state.networkMap| == |t.networkMap| + 1 > NetworkMapCap
    ensures forall a :: Connect(a, MappingReason) !in MapNetworkStep(t, report).out
  {
    assert t.networkMap[report.nodeAddress := report].Keys == t.networkMap.Keys + {report.nodeAddress};
  }
}
