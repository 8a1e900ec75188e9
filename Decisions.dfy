/**
 * The branch decisions of the P2P message processor, as pure functions: the
 * disconnect retry, the join tier of the periodic loop and its delay, the
 * swap-request handler, the walk-response route, and the candidate list of a
 * network-map reply.
 */
module P2PDecisions {
  import opened P2PTypes

  // ---------------------------------------------------------------------------
  // DISCONNECT: close a tracked link, otherwise retry a bounded number of times.

  const MaxDisconnectAttempts := 3
  const DisconnectRetryDelay := 1000

  /** The address is one of the node's out-, in- or client links. */
  predicate Tracked(t: Topology, a: Address)
  {
    a in t.outLinks || a in t.inLinks || a in t.clientLinks
  }

  datatype DisconnectAction = CloseConnection | RetryLater(nextAttempt: int) | Abandon

  function DisconnectDecision(tracked: bool, attempt: int): (d: DisconnectAction)
    ensures d.CloseConnection? <==> tracked
    ensures d.RetryLater? <==> !tracked && attempt < MaxDisconnectAttempts
    ensures d.Abandon? <==> !tracked && attempt >= MaxDisconnectAttempts
    ensures d.RetryLater? ==> d.nextAttempt == attempt + 1 <= MaxDisconnectAttempts
  {
    if tracked then CloseConnection
    else if attempt < MaxDisconnectAttempts then RetryLater(attempt + 1)
    else Abandon
  }

  /**
   * The attempt numbers of the retries scheduled when a DISCONNECT for an address
   * that never becomes tracked is delivered again each time its timer fires.
   */
  function RetryChain(attempt: int): seq<int>
    decreases if attempt < MaxDisconnectAttempts then MaxDisconnectAttempts - attempt else 0
  {
    match DisconnectDecision(false, attempt)
    case RetryLater(next) => [next] + RetryChain(next)
    case _ => []
  }

  /** Every retry chain is finite: it counts up from attempt + 1 and stops at 3. */
  lemma {:induction false} RetryChainIsBounded(attempt: int)
    ensures |RetryChain(attempt)| == if attempt < MaxDisconnectAttempts then MaxDisconnectAttempts - attempt else 0
    ensures forall i :: 0 <= i < |RetryChain(attempt)| ==> RetryChain(attempt)[i] == attempt + 1 + i
    decreases if attempt < MaxDisconnectAttempts then MaxDisconnectAttempts - attempt else 0
  {
    if attempt < MaxDisconnectAttempts {
      RetryChainIsBounded(attempt + 1);
    }
  }

  /** From the first attempt, exactly three retries are scheduled, then none. */
  lemma ThreeRetriesFromFirstAttempt()
    ensures RetryChain(0) == [1, 2, 3]
  {
    RetryChainIsBounded(0);
  }

  // ---------------------------------------------------------------------------
  // LOOP: three-tier join strategy and the rescheduling delay.

  const EntryNodeThreshold := 3
  const FastLoopBase := 6000
  const FastLoopJitter := 3000
  const SlowLoopBase := 300000
  const SlowLoopJitter := 30000

  datatype JoinTier = JoinRendezvous | JoinEntryNode | JoinScaleOut | NoJoin

  function LoopTier(rendezvousComplete: bool, outCount: int, numLinks: int): (tier: JoinTier)
    ensures tier == JoinRendezvous <==> !rendezvousComplete
    ensures tier == JoinEntryNode <==> rendezvousComplete && outCount < EntryNodeThreshold
    ensures tier == JoinScaleOut <==> rendezvousComplete && EntryNodeThreshold <= outCount < numLinks
    ensures tier == NoJoin <==> rendezvousComplete && EntryNodeThreshold <= outCount && numLinks <= outCount
  {
    if !rendezvousComplete then JoinRendezvous
    else if outCount < EntryNodeThreshold then JoinEntryNode
    else if outCount < numLinks then JoinScaleOut
    else NoJoin
  }

  /** The two tiers that are still short of basic connectivity retry quickly. */
  predicate FastTier(tier: JoinTier)
  {
    tier == JoinRendezvous || tier == JoinEntryNode
  }

  /** The half-open delay range the loop reschedules itself with after `tier`. */
  predicate DelayInRange(tier: JoinTier, delay: int)
  {
    if FastTier(tier) then FastLoopBase <= delay < FastLoopBase + FastLoopJitter
    else SlowLoopBase <= delay < SlowLoopBase + SlowLoopJitter
  }

  /**
   * The delay built from the two random draws: the slow draw is always taken,
   * the fast one replaces it on the fast tiers.
   */
  function LoopDelay(tier: JoinTier, slowDraw: int, fastDraw: int): (delay: int)
    requires 0 <= slowDraw < SlowLoopJitter && 0 <= fastDraw < FastLoopJitter
    ensures DelayInRange(tier, delay)
    ensures FastTier(tier) ==> delay < SlowLoopBase
    ensures !FastTier(tier) ==> delay >= SlowLoopBase
  {
    if FastTier(tier) then FastLoopBase + fastDraw else SlowLoopBase + slowDraw
  }

  /** Every delay of a tier's range is produced by some pair of draws. */
  lemma EveryDelayInRangeIsReachable(tier: JoinTier, delay: int)
    requires DelayInRange(tier, delay)
    ensures exists s, f :: 0 <= s < SlowLoopJitter && 0 <= f < FastLoopJitter && LoopDelay(tier, s, f) == delay
  {
    if FastTier(tier) {
      assert LoopDelay(tier, 0, delay - FastLoopBase) == delay;
    } else {
      assert LoopDelay(tier, delay - SlowLoopBase, 0) == delay;
    }
  }

  // ---------------------------------------------------------------------------
  // SWAP_LINK: which collaborator answers a swap request.

  /** The three branches of `processSwapLinkMsg`, in order. */
  datatype SwapCase = SwapClientsCase | ConditionalSurplusCase | FallbackCase

  datatype SwapHandler = OnSwapClientsReq | OnSwapReq

  function SwapCaseOf(req: SwapLink, inCount: int, numLinks: int): (c: SwapCase)
    ensures c == SwapClientsCase <==> req.swapClientReq
    ensures c == ConditionalSurplusCase <==> !req.swapClientReq && req.conditionalSwapReq && inCount > numLinks
  {
    if req.swapClientReq then SwapClientsCase
    else if req.conditionalSwapReq && inCount > numLinks then ConditionalSurplusCase
    else FallbackCase
  }

  /** The conditional branch and the fallback branch both call onSwapReq. */
  function HandlerOf(c: SwapCase): (h: SwapHandler)
    ensures h == OnSwapClientsReq <==> c == SwapClientsCase
  {
    match c
    case SwapClientsCase => OnSwapClientsReq
    case ConditionalSurplusCase => OnSwapReq
    case FallbackCase => OnSwapReq
  }

  function SwapHandlerFor(req: SwapLink, inCount: int, numLinks: int): (h: SwapHandler)
    ensures h == OnSwapClientsReq <==> req.swapClientReq
    ensures h == OnSwapReq <==> !req.swapClientReq
  {
    HandlerOf(SwapCaseOf(req, inCount, numLinks))
  }

  /** The in-link surplus test never changes the handler: "conditional" gates nothing. */
  lemma ConditionalGateIsNoOp(req: SwapLink, in1: int, links1: int, in2: int, links2: int)
    ensures SwapHandlerFor(req, in1, links1) == SwapHandlerFor(req, in2, links2)
  {
  }

  // ---------------------------------------------------------------------------
  // WALK_LINKS_RESPONSE: has the walk come back to where it started?

  datatype WalkRoute = EmptyPathFault | ReturnedToOrigin | ForwardResponse

  function WalkRouteOf(self: Address, path: seq<Address>): (r: WalkRoute)
    ensures r == EmptyPathFault <==> path == []
    ensures r == ReturnedToOrigin <==> path != [] && path[0] == self
    ensures r == ForwardResponse <==> path != [] && path[0] != self
  {
    if path == [] then EmptyPathFault            // pathTaken.get(0) throws
    else if self == path[0] then ReturnedToOrigin
    else ForwardResponse
  }

  // ---------------------------------------------------------------------------
  // MAP_NETWORK: reported addresses not yet mapped, each once, in report order.

  predicate NoDuplicates(s: seq<Address>)
  {
    forall i, j :: 0 <= i < j < |s| ==> s[i] != s[j]
  }

  /** The addresses of `s` that are not in `known`, in order (a stream filter). */
  function Unknown(s: seq<Address>, known: set<Address>): (r: seq<Address>)
    ensures |r| <= |s|
    ensures forall a :: a in r <==> a in s && a !in known
  {
    if s == [] then []
    else if s[0] in known then Unknown(s[1..], known)
    else [s[0]] + Unknown(s[1..], known)
  }

  /** The first occurrence of each address of `s`, in order (a stream distinct). */
  function Distinct(s: seq<Address>): (r: seq<Address>)
    ensures NoDuplicates(r)
    ensures forall a :: a in r <==> a in s
    ensures |r| <= |s|
  {
    if s == [] then []
    else
      var front := Distinct(s[..|s| - 1]);
      if s[|s| - 1] in s[..|s| - 1] then front else front + [s[|s| - 1]]
  }

  /** Distinct keeps a list without repetitions as it is. */
  lemma {:induction false} DistinctOfNoDuplicates(s: seq<Address>)
    requires NoDuplicates(s)
    ensures Distinct(s) == s
  {
    if s != [] {
      var init := s[..|s| - 1];
      assert NoDuplicates(init);
      DistinctOfNoDuplicates(init);
      assert s[|s| - 1] !in init;
      assert init + [s[|s| - 1]] == s;
    }
  }

  /** The index of the first occurrence of `x` in `s`. */
  function FirstIndex(s: seq<Address>, x: Address): (k: nat)
    requires x in s
    ensures k < |s| && s[k] == x
    ensures forall m :: 0 <= m < k ==> s[m] != x
  {
    if s[0] == x then 0 else 1 + FirstIndex(s[1..], x)
  }

  /** The filter keeps order and multiplicity: it distributes over concatenation. */
  lemma {:induction false} UnknownOfConcat(s1: seq<Address>, s2: seq<Address>, known: set<Address>)
    ensures Unknown(s1 + s2, known) == Unknown(s1, known) + Unknown(s2, known)
  {
    if s1 == [] {
      assert s1 + s2 == s2;
    } else {
      assert (s1 + s2)[0] == s1[0];
      assert (s1 + s2)[1..] == s1[1..] + s2;
      UnknownOfConcat(s1[1..], s2, known);
    }
  }

  /** The filter keeps the relative order of the first occurrences of the addresses it keeps. */
  lemma {:induction false} UnknownKeepsFirstOrder(s: seq<Address>, known: set<Address>, x: Address, y: Address)
    requires x in Unknown(s, known) && y in Unknown(s, known)
    ensures FirstIndex(Unknown(s, known), x) < FirstIndex(Unknown(s, known), y) <==> FirstIndex(s, x) < FirstIndex(s, y)
  {
    var u := Unknown(s, known);
    if s[0] in known {
      assert u == Unknown(s[1..], known);
      assert s[0] != x && s[0] != y;
      UnknownKeepsFirstOrder(s[1..], known, x, y);
    } else if s[0] != x && s[0] != y {
      assert u == [s[0]] + Unknown(s[1..], known);
      assert u[0] != x && u[0] != y;
      assert FirstIndex(u, x) == 1 + FirstIndex(u[1..], x);
      assert FirstIndex(u, y) == 1 + FirstIndex(u[1..], y);
      UnknownKeepsFirstOrder(s[1..], known, x, y);
    } else {
      assert u[0] == s[0];
    }
  }

  /** Appending does not move the first occurrence of an address already present. */
  lemma FirstIndexOfConcat(s: seq<Address>, tail: seq<Address>, x: Address)
    requires x in s
    ensures FirstIndex(s + tail, x) == FirstIndex(s, x)
  {
    var k := FirstIndex(s, x);
    assert (s + tail)[k] == x;
    assert FirstIndex(s + tail, x) <= k;
  }

  /** An address that is only in the appended part first occurs past the original part. */
  lemma FirstIndexPastPrefix(s: seq<Address>, tail: seq<Address>, x: Address)
    requires x in s + tail && x !in s
    ensures FirstIndex(s + tail, x) >= |s|
  {
    forall m | 0 <= m < |s| ensures (s + tail)[m] != x {
      assert (s + tail)[m] == s[m];
    }
  }

  /** Distinct keeps the first occurrences in the order in which they are met. */
  lemma {:induction false} DistinctKeepsFirstOccurrences(s: seq<Address>)
    ensures forall i, j :: 0 <= i < j < |Distinct(s)| ==> FirstIndex(s, Distinct(s)[i]) < FirstIndex(s, Distinct(s)[j])
  {
    if s != [] {
      var init := s[..|s| - 1];
      var last := s[|s| - 1];
      assert s == init + [last];
      DistinctKeepsFirstOccurrences(init);
      var d := Distinct(s);
      var front := Distinct(init);
      forall i, j | 0 <= i < j < |d| ensures FirstIndex(s, d[i]) < FirstIndex(s, d[j]) {
        assert d[i] == front[i];
        FirstIndexOfConcat(init, [last], d[i]);
        if j < |front| {
          assert d[j] == front[j];
          FirstIndexOfConcat(init, [last], d[j]);
        } else {
          assert d[j] == last && last !in init;
          assert FirstIndex(s, last) == |s| - 1;
        }
      }
    }
  }

  /**
   * Distinct of a concatenation lists the addresses of the first part before any
   * address that occurs only in the second part.
   */
  lemma DistinctKeepsGroups(s: seq<Address>, tail: seq<Address>)
    ensures var d := Distinct(s + tail);
            forall i, j :: 0 <= i < j < |d| && d[j] in s ==> d[i] in s
  {
    var d := Distinct(s + tail);
    DistinctKeepsFirstOccurrences(s + tail);
    forall i, j | 0 <= i < j < |d| && d[j] in s ensures d[i] in s {
      FirstIndexOfConcat(s, tail, d[j]);
      if d[i] !in s {
        FirstIndexPastPrefix(s, tail, d[i]);
      }
    }
  }

  /** The addresses to crawl next: reported, not yet mapped, each once. */
  function MappingCandidates(reported: seq<Address>, mapped: set<Address>): (r: seq<Address>)
    ensures NoDuplicates(r)
    ensures forall a :: a in r <==> a in reported && a !in mapped
    ensures |r| <= |reported|
  {
    Distinct(Unknown(reported, mapped))
  }

  /** The candidates come in the order of their first report. */
  lemma MappingCandidatesInReportOrder(reported: seq<Address>, mapped: set<Address>)
    ensures var r := MappingCandidates(reported, mapped);
            forall i, j :: 0 <= i < j < |r| ==> FirstIndex(reported, r[i]) < FirstIndex(reported, r[j])
  {
    var u := Unknown(reported, mapped);
    var r := MappingCandidates(reported, mapped);
    DistinctKeepsFirstOccurrences(u);
    forall i, j | 0 <= i < j < |r| ensures FirstIndex(reported, r[i]) < FirstIndex(reported, r[j]) {
      assert FirstIndex(u, r[i]) < FirstIndex(u, r[j]);
      UnknownKeepsFirstOrder(reported, mapped, r[i], r[j]);
    }
  }

  // ---------------------------------------------------------------------------
  // Decimal rendering of an int, as the retry reason text carries the attempt.

  function DigitChar(d: int): (c: char)
    requires 0 <= d < 10
    ensures '0' <= c <= '9'
    ensures c as int - '0' as int == d
  {
    ('0' as int + d) as char
  }

  predicate AllDigits(s: string)
  {
    forall k :: 0 <= k < |s| ==> '0' <= s[k] <= '9'
  }

  /** The number a string of decimal digits denotes. */
  function DecimalValue(s: string): nat
    requires AllDigits(s)
  {
    if s == [] then 0 else 10 * DecimalValue(s[..|s| - 1]) + (s[|s| - 1] as int - '0' as int)
  }

  /** The decimal digits of `n`, most significant first, without leading zeros. */
  function NatToString(n: nat): (s: string)
    ensures |s| >= 1 && AllDigits(s)
    ensures s[0] == '0' <==> n == 0
    decreases n
  {
    if n < 10 then [DigitChar(n)] else NatToString(n / 10) + [DigitChar(n % 10)]
  }

  /** The digits denote the number they were rendered from. */
  lemma {:induction false} NatToStringRoundTrip(n: nat)
    ensures DecimalValue(NatToString(n)) == n
    decreases n
  {
    var s := NatToString(n);
    if n < 10 {
      assert s[..0] == [];
    } else {
      NatToStringRoundTrip(n / 10);
      assert s[..|s| - 1] == NatToString(n / 10);
    }
  }

  /** Java's decimal rendering of an int: a minus sign for a negative value, then the digits of its magnitude. */
  function IntToString(i: int): (r: string)
    ensures |r| >= 1
    ensures r[0] == '-' <==> i < 0
    ensures i < 0 ==> r[1..] == NatToString(-i)
    ensures i >= 0 ==> r == NatToString(i)
  {
    if i < 0 then "-" + NatToString(-i) else NatToString(i)
  }

  /** The rendering of an int reads back as that int. */
  lemma IntToStringRoundTrip(i: int)
    ensures var r := IntToString(i);
            if i < 0 then AllDigits(r[1..]) && DecimalValue(r[1..]) == -i
            else AllDigits(r) && DecimalValue(r) == i
  {
    if i < 0 {
      NatToStringRoundTrip(-i);
    } else {
      NatToStringRoundTrip(i);
    }
  }
}
