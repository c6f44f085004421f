/** Peer addresses: which may be sent to the geolocation service, and how the
    answers of all Monitored Nodes merge into one Peer Snapshot (src/geo/peers.rs). */
module PeerAddresses {
  import opened Ordering
  import opened Wrappers

  type Octet = x: int | 0 <= x < 0x100
  type Group = x: int | 0 <= x < 0x1_0000

  datatype IpAddr =
    | V4(a: Octet, b: Octet, c: Octet, d: Octet)
    | V6(g0: Group, g1: Group, g2: Group, g3: Group, g4: Group, g5: Group, g6: Group, g7: Group)

  /** Neither unspecified, loopback, private, link-local, multicast nor broadcast. */
  predicate IsEnrichable(ip: IpAddr) {
    match ip
    case V4(a, b, c, d) =>
      && !(a == 0 && b == 0 && c == 0 && d == 0)
      && a != 127
      && !(a == 10 || (a == 172 && 16 <= b <= 31) || (a == 192 && b == 168))
      && !(a == 169 && b == 254)
      && !(224 <= a <= 239)
      && !(a == 255 && b == 255 && c == 255 && d == 255)
    case V6(g0, g1, g2, g3, g4, g5, g6, g7) =>
      && !(g0 == 0 && g1 == 0 && g2 == 0 && g3 == 0 && g4 == 0 && g5 == 0 && g6 == 0 && g7 <= 1)
      && !(0xfc00 <= g0 <= 0xfdff)
      && !(0xfe80 <= g0 <= 0xfebf)
      && !(0xff00 <= g0)
  }

  function Value(ip: IpAddr): nat {
    match ip
    case V4(a, b, c, d) => a * 0x100_0000 + b * 0x1_0000 + c * 0x100 + d
    case V6(g0, g1, g2, g3, g4, g5, g6, g7) =>
      g0 * 0x10000_0000_0000_0000_0000_0000_0000 + g1 * 0x10000_0000_0000_0000_0000_0000
      + g2 * 0x10000_0000_0000_0000_0000 + g3 * 0x10000_0000_0000_0000
      + g4 * 0x10000_0000_0000 + g5 * 0x1_0000_0000 + g6 * 0x1_0000 + g7
  }

  /** `size` consecutive addresses from `base`: a CIDR block. */
  datatype Block = Block(base: nat, size: nat)

  predicate Within(v: nat, block: Block) {
    block.base <= v < block.base + block.size
  }

  // 0.0.0.0/32, 127.0.0.0/8; 10.0.0.0/8, 172.16.0.0/12 and 192.168.0.0/16 (section 3 of RFC 1918);
  // 169.254.0.0/16, 224.0.0.0/4, 255.255.255.255/32.
  const EXCLUDED_V4: seq<Block> := [
    Block(0, 1),
    Block(0x7f00_0000, 0x100_0000),
    Block(0x0a00_0000, 0x100_0000),
    Block(0xac10_0000, 0x10_0000),
    Block(0xc0a8_0000, 0x1_0000),
    Block(0xa9fe_0000, 0x1_0000),
    Block(0xe000_0000, 0x1000_0000),
    Block(0xffff_ffff, 1)]

  // ::/128 and ::1/128; fc00::/7 (section 3.1 of RFC 4193); fe80::/10 (section 2.5.6 of RFC 4291); ff00::/8.
  const EXCLUDED_V6: seq<Block> := [
    Block(0, 2),
    Block(0xfc00_0000_0000_0000_0000_0000_0000_0000, 0x200_0000_0000_0000_0000_0000_0000_0000),
    Block(0xfe80_0000_0000_0000_0000_0000_0000_0000, 0x40_0000_0000_0000_0000_0000_0000_0000),
    Block(0xff00_0000_0000_0000_0000_0000_0000_0000, 0x100_0000_0000_0000_0000_0000_0000_0000)]

  function ExcludedBlocks(ip: IpAddr): seq<Block> {
    if ip.V4? then EXCLUDED_V4 else EXCLUDED_V6
  }

  predicate OutsideAll(v: nat, blocks: seq<Block>) {
    forall i | 0 <= i < |blocks| :: !Within(v, blocks[i])
  }

  lemma OutsideFour(v: nat, blocks: seq<Block>)
    requires |blocks| == 4
    ensures OutsideAll(v, blocks) <==>
      !Within(v, blocks[0]) && !Within(v, blocks[1]) && !Within(v, blocks[2]) && !Within(v, blocks[3])
  {
  }

  lemma EnrichableV6(ip: IpAddr)
    requires ip.V6?
    ensures IsEnrichable(ip) <==> OutsideAll(Value(ip), EXCLUDED_V6)
  {
    OutsideFour(Value(ip), EXCLUDED_V6);
  }

  lemma EnrichableV4(ip: IpAddr)
    requires ip.V4?
    ensures IsEnrichable(ip) <==> OutsideAll(Value(ip), EXCLUDED_V4)
  {
    OutsideFour(Value(ip), EXCLUDED_V4[..4]);
    OutsideFour(Value(ip), EXCLUDED_V4[4..]);
    assert EXCLUDED_V4 == EXCLUDED_V4[..4] + EXCLUDED_V4[4..];
    assert OutsideAll(Value(ip), EXCLUDED_V4) <==>
      OutsideAll(Value(ip), EXCLUDED_V4[..4]) && OutsideAll(Value(ip), EXCLUDED_V4[4..]);
  }

  /** The octet tests select exactly the addresses outside the reserved blocks. */
  lemma EnrichableIsOutsideReservedBlocks(ip: IpAddr)
    ensures IsEnrichable(ip) <==> OutsideAll(Value(ip), ExcludedBlocks(ip))
  {
    if ip.V4? { EnrichableV4(ip); } else { EnrichableV6(ip); }
  }

  // ------------------------------------------------------------- merging

  /** The library's printing and parsing of addresses; parsing undoes printing. */
  datatype Codec = Codec(print_: IpAddr -> string, parse: string -> Option<IpAddr>)

  ghost predicate Lawful(codec: Codec) {
    forall ip :: codec.parse(codec.print_(ip)) == Some(ip)
  }

  predicate MayLookUp(codec: Codec, text: string) {
    codec.parse(text).Some? && IsEnrichable(codec.parse(text).value)
  }

  type NodeResult = Result<seq<IpAddr>>

  /** Every address some node reported, printed. */
  ghost function Reported(codec: Codec, results: seq<NodeResult>): set<string> {
    set r, ip | r in results && r.Ok? && ip in r.value :: codec.print_(ip)
  }

  function FirstError(results: seq<NodeResult>): Option<string> {
    if results == [] then None
    else if results[0].Err? then Some(results[0].error)
    else FirstError(results[1..])
  }

  /** One failing node fails the round; otherwise the deduplicated union in order. */
  ghost function Merged(codec: Codec, results: seq<NodeResult>): Result<seq<string>> {
    match FirstError(results)
    case Some(error) => Err(error)
    case None => Ok(Sorted(StrLt, Reported(codec, results)))
  }

  lemma {:induction false} FirstErrorMeans(results: seq<NodeResult>)
    ensures FirstError(results).None? <==> forall i | 0 <= i < |results| :: results[i].Ok?
  {
    if results != [] {
      FirstErrorMeans(results[1..]);
      assert forall i | 0 < i < |results| :: results[i] == results[1..][i - 1];
    }
  }

  lemma {:induction false} FirstErrorAt(results: seq<NodeResult>, i: nat)
    requires i < |results| && results[i].Err? && forall k | 0 <= k < i :: results[k].Ok?
    ensures FirstError(results) == Some(results[i].error)
  {
    if i > 0 {
      FirstErrorAt(results[1..], i - 1);
    }
  }

  method MergeNodeResults(codec: Codec, results: seq<NodeResult>) returns (merged: Result<seq<string>>)
    ensures merged == Merged(codec, results)
  {
    var ips: seq<string> := [];
    for i := 0 to |results|
      invariant forall k | 0 <= k < i :: results[k].Ok?
      invariant Elems(ips) == Reported(codec, results[..i])
    {
      match results[i]
      case Err(error) =>
        FirstErrorAt(results, i);
        return Err(error);
      case Ok(nodeIps) =>
        var printed := PrintAll(codec, nodeIps);
        ReportedStep(codec, results[..i], results[i]);
        assert results[..i + 1] == results[..i] + [results[i]];
        assert Elems(ips + printed) == Elems(ips) + Elems(printed);
        ips := ips + printed;
    }
    FirstErrorMeans(results);
    assert results[..|results|] == results;
    var sorted := SortDedup(ips);
    merged := Ok(sorted);
  }

  method PrintAll(codec: Codec, ips: seq<IpAddr>) returns (texts: seq<string>)
    ensures Elems(texts) == set ip | ip in ips :: codec.print_(ip)
  {
    texts := [];
    for i := 0 to |ips|
      invariant Elems(texts) == set ip | ip in ips[..i] :: codec.print_(ip)
    {
      assert ips[..i + 1] == ips[..i] + [ips[i]];
      AddElem(texts, codec.print_(ips[i]));
      texts := texts + [codec.print_(ips[i])];
    }
    assert ips[..|ips|] == ips;
  }

  lemma ReportedStep(codec: Codec, results: seq<NodeResult>, r: NodeResult)
    ensures Reported(codec, results + [r])
         == Reported(codec, results) + if r.Ok? then set ip | ip in r.value :: codec.print_(ip) else {}
  {
    var all := results + [r];
    forall text ensures text in Reported(codec, all) <==>
      text in Reported(codec, results) || (r.Ok? && text in set ip | ip in r.value :: codec.print_(ip))
    {
      if text in Reported(codec, results) {
        var q, ip :| q in results && q.Ok? && ip in q.value && codec.print_(ip) == text;
        assert q in all;
      }
      if r.Ok? && text in set ip | ip in r.value :: codec.print_(ip) {
        var ip :| ip in r.value && codec.print_(ip) == text;
        assert r in all;
      }
    }
  }
}
