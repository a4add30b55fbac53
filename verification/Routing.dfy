/** sharding/sharding.go, cluster/cluster.go and the supervisor lookup of actor/api.go: which
    shard a flow belongs to, which node serves it, and whether that node knows it does. */
module Routing {
  import opened FlowModel
  import opened Names

  // ----- Flow identifiers and shards -----

  type Octet = x: int | 0 <= x < 256

  /** The sixteen octets of a UUID, in the order of section 4.1.2 of RFC 4122. */
  type Uuid = o: seq<Octet> | |o| == 16 witness seq(16, _ => 0)

  /** What parsing a flow identifier gives: None is a parse error. */
  type FlowId = Option<Uuid>

  function BigEndian(o: seq<Octet>): nat {
    if o == [] then 0 else 256 * BigEndian(o[..|o| - 1]) + o[|o| - 1]
  }

  function Bit(n: nat, k: nat): bool { if k == 0 then n % 2 == 1 else Bit(n / 2, k - 1) }

  function Xor(a: nat, b: nat): nat {
    if a == 0 && b == 0 then 0 else 2 * Xor(a / 2, b / 2) + (if a % 2 != b % 2 then 1 else 0)
  }

  function Power(base: nat, e: nat): nat { if e == 0 then 1 else base * Power(base, e - 1) }

  /** Bit by bit, one or the other but not both. */
  lemma {:induction false} XorBits(a: nat, b: nat, k: nat)
    ensures Bit(Xor(a, b), k) == (Bit(a, k) != Bit(b, k))
    decreases k
  {
    if a == 0 && b == 0 {
      ZeroBits(k);
    } else if k > 0 {
      XorBits(a / 2, b / 2, k - 1);
      assert Xor(a, b) / 2 == Xor(a / 2, b / 2);
    }
  }

  lemma {:induction false} ZeroBits(k: nat)
    ensures !Bit(0, k)
  {
    if k > 0 { ZeroBits(k - 1); }
  }

  lemma {:induction false} XorFits(a: nat, b: nat, width: nat)
    requires a < Power(2, width) && b < Power(2, width)
    ensures Xor(a, b) < Power(2, width)
  {
    if !(a == 0 && b == 0) && width > 0 { XorFits(a / 2, b / 2, width - 1); }
  }

  lemma {:induction false} XorZero(a: nat)
    ensures Xor(a, 0) == a
  {
    if a > 0 { XorZero(a / 2); }
  }

  lemma {:induction false} BigEndianFits(o: seq<Octet>)
    ensures BigEndian(o) < Power(256, |o|)
  {
    if o != [] { BigEndianFits(o[..|o| - 1]); }
  }

  /** The xor of the two halves, which fits 64 bits. */
  function Folded(id: Uuid): nat { Xor(BigEndian(id[..8]), BigEndian(id[8..])) }

  lemma FourDoublings(k: nat)
    ensures Power(2, k + 4) == 16 * Power(2, k)
  {
    assert Power(2, k + 2) == 2 * Power(2, k + 1);
    assert Power(2, k + 4) == 2 * Power(2, k + 3);
  }

  lemma {:induction false} OctetPower(n: nat)
    ensures Power(256, n) == Power(2, 8 * n)
  {
    if n > 0 {
      OctetPower(n - 1);
      var k := 8 * (n - 1);
      FourDoublings(k);
      FourDoublings(k + 4);
    }
  }

  lemma FoldedFits(id: Uuid)
    ensures Folded(id) < Power(2, 64)
  {
    BigEndianFits(id[..8]);
    BigEndianFits(id[8..]);
    OctetPower(8);
    XorFits(BigEndian(id[..8]), BigEndian(id[8..]), 64);
  }

  /** sharding/sharding.go:28. */
  function ShardId(shardCount: nat, flow: FlowId): (shard: Option<nat>)
    requires shardCount > 0
    ensures shard.Some? <==> flow.Some?
    ensures shard.Some? ==> shard.value < shardCount
  {
    if flow.None? then None else Some(Folded(flow.value) % shardCount)
  }

  // ----- The same, octet by octet and bit by bit -----

  lemma HalfOfSum(high: nat, low: nat, p: nat)
    ensures var n := high * (2 * p) + low; n % 2 == low % 2 && n / 2 == high * p + low / 2
  {
    var q := high * p;
    assert high * (2 * p) == 2 * q;
  }

  /** The low `width` bits of a number and the rest of it. */
  lemma {:induction false} BitsOfSum(high: nat, low: nat, width: nat, k: nat)
    requires low < Power(2, width)
    ensures Bit(high * Power(2, width) + low, k) == if k < width then Bit(low, k) else Bit(high, k - width)
    decreases width
  {
    if width == 0 {
      assert high * Power(2, 0) + low == high;
    } else {
      HalfOfSum(high, low, Power(2, width - 1));
      if k > 0 { BitsOfSum(high, low / 2, width - 1, k - 1); }
    }
  }

  lemma EightBits()
    ensures Power(2, 8) == 256
  {
    assert Power(2, 4) == 16;
    FourDoublings(4);
  }

  /** The bits of a big-endian number are those of its octets, the last octet lowest. */
  lemma {:induction false} BigEndianBits(o: seq<Octet>, i: nat, b: nat)
    requires i < |o| && b < 8
    ensures Bit(BigEndian(o), 8 * (|o| - 1 - i) + b) == Bit(o[i], b)
  {
    var n := |o| - 1;
    EightBits();
    BitsOfSum(BigEndian(o[..n]), o[n], 8, 8 * (n - i) + b);
    if i < n { BigEndianBits(o[..n], i, b); }
  }

  /** Numbers with the same bits are the same. */
  lemma {:induction false} SameBits(m: nat, n: nat, width: nat)
    requires m < Power(2, width) && n < Power(2, width)
    requires forall k: nat :: k < width ==> Bit(m, k) == Bit(n, k)
    ensures m == n
  {
    if width > 0 {
      assert Bit(m, 0) == Bit(n, 0);
      forall k: nat | k < width - 1 ensures Bit(m / 2, k) == Bit(n / 2, k) { assert Bit(m, k + 1) == Bit(n, k + 1); }
      SameBits(m / 2, n / 2, width - 1);
    }
  }

  /** Bit `b` of the octet at place `i` of a 64-bit number, the first octet highest. */
  predicate OctetBit(n: nat, i: nat, b: nat)
    requires i < 8
  {
    Bit(n, 8 * (7 - i) + b)
  }

  /** Bit `b` differs between octet `i` and octet `8 + i` of the identifier. */
  predicate HalvesDiffer(id: Uuid, i: nat, b: nat)
    requires i < 8
  {
    Bit(id[i], b) != Bit(id[8 + i], b)
  }

  lemma FoldedBits(id: Uuid, i: nat, b: nat)
    requires i < 8 && b < 8
    ensures Bit(Folded(id), 8 * (7 - i) + b) == (Bit(id[i], b) != Bit(id[8 + i], b))
  {
    hide Bit, Xor, BigEndian;
    BigEndianBits(id[..8], i, b);
    BigEndianBits(id[8..], i, b);
    XorBits(BigEndian(id[..8]), BigEndian(id[8..]), 8 * (7 - i) + b);
  }

  /** The shard is the remainder of the one 64-bit number whose bits tell where the two halves of the
      identifier differ. */
  lemma ShardOfBits(shardCount: nat, id: Uuid, n: nat)
    requires shardCount > 0 && n < Power(2, 64)
    requires forall i: nat, b: nat :: i < 8 && b < 8 ==> OctetBit(n, i, b) == HalvesDiffer(id, i, b)
    ensures ShardId(shardCount, Some(id)) == Some(n % shardCount)
  {
    hide Bit, Power;
    forall k: nat | k < 64 ensures Bit(n, k) == Bit(Folded(id), k) {
      var i, b := 7 - k / 8, k % 8;
      assert k == 8 * (7 - i) + b;
      assert OctetBit(n, i, b) == HalvesDiffer(id, i, b);
      FoldedBits(id, i, b);
    }
    FoldedFits(id);
    SameBits(n, Folded(id), 64);
  }

  /** There is such a number for every identifier. */
  lemma ShardHasBits(shardCount: nat, id: Uuid) returns (n: nat)
    requires shardCount > 0
    ensures n < Power(2, 64) && ShardId(shardCount, Some(id)) == Some(n % shardCount)
    ensures forall i: nat, b: nat :: i < 8 && b < 8 ==> OctetBit(n, i, b) == HalvesDiffer(id, i, b)
  {
    hide Bit, Power;
    n := Folded(id);
    FoldedFits(id);
    forall i: nat, b: nat | i < 8 && b < 8 ensures OctetBit(n, i, b) == HalvesDiffer(id, i, b) { FoldedBits(id, i, b); }
  }

  lemma {:induction false} PowerPositive(e: nat)
    ensures Power(2, e) > 0
  {
    if e > 0 { PowerPositive(e - 1); }
  }

  /** The identifier 00000000-0000-0000-0000-000000000001 belongs to shard 1 of 16. */
  lemma LastOctetCounts()
    ensures ShardId(16, Some(seq(15, _ => 0) + [1])) == Some(1)
  {
    var id: Uuid := seq(15, _ => 0) + [1];
    forall i: nat, b: nat | i < 8 && b < 8 ensures OctetBit(1, i, b) == HalvesDiffer(id, i, b) {
      if 8 * (7 - i) + b > 0 { ZeroBits(8 * (7 - i) + b - 1); }
      ZeroBits(b);
      if b > 0 { ZeroBits(b - 1); }
    }
    assert 1 < Power(2, 64) by {
      PowerPositive(60);
      FourDoublings(60);
    }
    ShardOfBits(16, id, 1);
  }

  function Octets(n: nat, width: nat): (o: seq<Octet>)
    ensures |o| == width
  {
    if width == 0 then [] else Octets(n / 256, width - 1) + [n % 256]
  }

  lemma {:induction false} OctetsRoundTrip(n: nat, width: nat)
    requires n < Power(256, width)
    ensures BigEndian(Octets(n, width)) == n
  {
    if width > 0 {
      OctetsRoundTrip(n / 256, width - 1);
      assert Octets(n, width)[..width - 1] == Octets(n / 256, width - 1);
    }
  }

  /** No shard is empty: every one is the shard of some flow. */
  lemma EveryShardIsUsed(shardCount: nat, shard: nat)
    requires shard < shardCount <= Power(2, 64)
    ensures exists flow: FlowId :: ShardId(shardCount, flow) == Some(shard)
  {
    hide Power, Octets, BigEndian, Xor;
    OctetPower(8);
    OctetsRoundTrip(shard, 8);
    OctetsRoundTrip(0, 8);
    XorZero(shard);
    var id: Uuid := Octets(shard, 8) + Octets(0, 8);
    assert id[..8] == Octets(shard, 8) && id[8..] == Octets(0, 8);
    assert ShardId(shardCount, Some(id)) == Some(shard);
  }

  // ----- Nodes -----

  datatype Settings = Settings(nodeCount: nat, nodeId: nat, nodePrefix: string, nodePort: nat)

  function NodeName(s: Settings, i: nat): string { s.nodePrefix + Itoa(i) }

  function NodeAddress(s: Settings, i: nat): string {
    if i == s.nodeId then "localhost:" + Itoa(s.nodePort) else NodeName(s, i) + ":" + Itoa(s.nodePort)
  }

  /** The shards a node serves. */
  predicate Serves(nodeCount: nat, shardCount: nat, node: nat, shard: nat)
    requires nodeCount > 0
  {
    shard < shardCount && shard % nodeCount == node
  }

  /** Serving shards partitions them: each has exactly one node. */
  lemma ShardsArePartitioned(nodeCount: nat, shardCount: nat, shard: nat)
    requires nodeCount > 0 && shard < shardCount
    ensures exists n: nat :: n < nodeCount && Serves(nodeCount, shardCount, n, shard)
    ensures forall m: nat, n: nat :: Serves(nodeCount, shardCount, m, shard) && Serves(nodeCount, shardCount, n, shard) ==> m == n
  {
    assert Serves(nodeCount, shardCount, shard % nodeCount, shard);
  }

  class Manager {
    const settings: Settings
    const shardCount: nat
    var reverseProxies: map<string, string>

    /** Every node's proxy is filed under its name. */
    predicate Valid()
      reads this
    {
      && settings.nodeCount > 0 && shardCount > 0
      && forall i: nat :: i < settings.nodeCount ==>
           NodeName(settings, i) in reverseProxies && reverseProxies[NodeName(settings, i)] == NodeAddress(settings, i)
    }

    /** cluster/cluster.go:45; a proxy is known by the address it was dialled at. */
    constructor (s: Settings, count: nat)
      requires s.nodeCount > 0 && count > 0
      ensures Valid() && settings == s && shardCount == count
    {
      settings, shardCount := s, count;
      var proxies: map<string, string> := map[];
      for i := 0 to s.nodeCount
        invariant forall k: nat :: k < i ==> NodeName(s, k) in proxies && proxies[NodeName(s, k)] == NodeAddress(s, k)
      {
        forall k: nat | k < i ensures NodeName(s, k) != NodeName(s, i) { NumberedNamesDiffer(s.nodePrefix, k, i); }
        proxies := proxies[NodeName(s, i) := NodeAddress(s, i)];
      }
      reverseProxies := proxies;
    }

    /** cluster/cluster.go:66: ascending, so without repetition. */
    method LocalShards() returns (shards: seq<nat>)
      requires Valid()
      ensures forall shard: nat :: shard in shards <==> Serves(settings.nodeCount, shardCount, settings.nodeId, shard)
      ensures forall shard: nat :: shard in shards <==> shard < shardCount && shard % settings.nodeCount == settings.nodeId
      ensures forall i, k :: 0 <= i < k < |shards| ==> shards[i] < shards[k]
    {
      shards := [];
      for shard := 0 to shardCount
        invariant forall x: nat :: x in shards <==> Serves(settings.nodeCount, shard, settings.nodeId, x)
        invariant forall i, k :: 0 <= i < k < |shards| ==> shards[i] < shards[k]
        invariant forall i :: 0 <= i < |shards| ==> shards[i] < shard
      {
        var nodeIndex := shard % settings.nodeCount;
        if nodeIndex == settings.nodeId {
          shards := shards + [shard];
        }
      }
    }

    /** cluster/cluster.go:94. */
    method ResolveNode(flow: FlowId) returns (node: Option<nat>)
      requires Valid()
      ensures node.Some? <==> flow.Some?
      ensures node.Some? ==>
                && node.value < settings.nodeCount && node.value == ShardId(shardCount, flow).value % settings.nodeCount
                && Serves(settings.nodeCount, shardCount, node.value, ShardId(shardCount, flow).value)
    {
      var shard := ShardId(shardCount, flow);
      if shard.None? {
        return None;
      }
      return Some(shard.value % settings.nodeCount);
    }

    /** cluster/cluster.go:77: the proxy of the one node that serves the flow. */
    method GetClient(flow: FlowId) returns (proxy: Option<string>)
      requires Valid()
      ensures proxy.Some? <==> flow.Some?
      ensures proxy.Some? ==> exists n: nat ::
                && n < settings.nodeCount && Serves(settings.nodeCount, shardCount, n, ShardId(shardCount, flow).value)
                && proxy.value == NodeAddress(settings, n)
      ensures proxy.Some? ==>
                var n := ShardId(shardCount, flow).value % settings.nodeCount;
                proxy.value == (if n == settings.nodeId then "localhost" else settings.nodePrefix + Itoa(n)) + ":" + Itoa(settings.nodePort)
    {
      var idx := ResolveNode(flow);
      if idx.None? {
        return None;
      }
      return Some(reverseProxies[NodeName(settings, idx.value)]);
    }
  }

  // ----- Supervisors -----

  function SupervisorName(shard: nat): string { "supervisor-" + Itoa(shard) }

  class GraphManager {
    const shardCount: nat
    var shardSupervisors: map<nat, string>

    /** actor/api.go:63-76: one supervisor per local shard, all with different names. */
    constructor (count: nat, shards: seq<nat>)
      requires count > 0
      ensures shardCount == count
      ensures forall shard: nat :: shard in shardSupervisors <==> shard in shards
      ensures forall shard: nat :: shard in shardSupervisors ==> shardSupervisors[shard] == SupervisorName(shard)
      ensures forall a: nat, b: nat :: a in shardSupervisors && b in shardSupervisors && a != b ==>
                shardSupervisors[a] != shardSupervisors[b]
    {
      shardCount := count;
      var supervisors: map<nat, string> := map[];
      for i := 0 to |shards|
        invariant forall shard: nat :: shard in supervisors <==> shard in shards[..i]
        invariant forall shard: nat :: shard in supervisors ==> supervisors[shard] == SupervisorName(shard)
      {
        supervisors := supervisors[shards[i] := SupervisorName(shards[i])];
        assert shards[..i + 1] == shards[..i] + [shards[i]];
      }
      assert shards[..|shards|] == shards;
      shardSupervisors := supervisors;
      forall a: nat, b: nat | a != b ensures SupervisorName(a) != SupervisorName(b) { NumberedNamesDiffer("supervisor-", a, b); }
    }

    /** actor/api.go:184. */
    method LookupSupervisor(flow: FlowId) returns (pid: Option<string>)
      requires shardCount > 0
      ensures pid.Some? <==> flow.Some? && ShardId(shardCount, flow).value in shardSupervisors
      ensures pid.Some? ==> pid.value == shardSupervisors[ShardId(shardCount, flow).value]
    {
      var shard := ShardId(shardCount, flow);
      if shard.None? || shard.value !in shardSupervisors {
        return None;
      }
      return Some(shardSupervisors[shard.value]);
    }
  }

  /** Routing agrees with ownership. Whatever node the front end runs on, a request for a valid
      flow goes to the node whose own supervisors include the flow's, and on every other node the
      lookup fails; an invalid identifier is refused on both ends. */
  method Deliver(s: Settings, shardCount: nat, flow: FlowId, node: nat) returns (routed: Option<nat>, pid: Option<string>)
    requires s.nodeCount > 0 && shardCount > 0 && node < s.nodeCount
    ensures routed.Some? <==> flow.Some?
    ensures pid.Some? <==> routed == Some(node)
    ensures pid.Some? ==> pid.value == SupervisorName(ShardId(shardCount, flow).value)
  {
    var front := new Manager(s, shardCount);
    routed := front.ResolveNode(flow);
    var owner := new Manager(s.(nodeId := node), shardCount);
    var shards := owner.LocalShards();
    var graphs := new GraphManager(shardCount, shards);
    pid := graphs.LookupSupervisor(flow);
  }
}
