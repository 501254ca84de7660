/**
 Ranks of the P2P connector. The world lists the FFN ranks first, then the Attention ranks; every
 FFN rank owns one subgroup made of itself and a contiguous block of Attention ranks.
 */
module Topology {
  import opened Arith

  // ----------------------------------------------------------- attention blocks

  /** The Attention rank at which subgroup `f` starts; a subgroup ends where the next one starts. */
  function BlockStart(f: int, attention: int, ffn: int): int
    requires ffn > 0
  {
    CeilDiv(f * attention, ffn)
  }

  predicate InBlock(a: int, f: int, attention: int, ffn: int)
    requires ffn > 0
  {
    BlockStart(f, attention, ffn) <= a < BlockStart(f + 1, attention, ffn)
  }

  /** The subgroup an Attention rank joins. */
  function Owner(a: int, attention: int, ffn: int): int
    requires attention > 0
  {
    a * ffn / attention
  }

  /** The floor that assigns a rank to a subgroup and the ceilings that list a subgroup's ranks agree. */
  lemma OwnerIffInBlock(a: int, f: int, attention: int, ffn: int)
    requires 0 < ffn && 0 < attention && 0 <= a && 0 <= f
    ensures Owner(a, attention, ffn) == f <==> InBlock(a, f, attention, ffn)
  {
    MulMonotone(0, a, ffn);
    MulMonotone(0, f, attention);
    MulMonotone(f, f + 1, attention);
    QuotientIs(a * ffn, attention, f);
    CeilDivAtMost(f * attention, ffn, a);
    CeilDivAtMost((f + 1) * attention, ffn, a);
  }

  lemma BlocksCover(attention: int, ffn: int)
    requires 0 < ffn && 0 < attention
    ensures BlockStart(0, attention, ffn) == 0 && BlockStart(ffn, attention, ffn) == attention
  {
    Multiple(ffn, attention);
    CeilDivAtMost(ffn * attention, ffn, attention);
    CeilDivAtMost(ffn * attention, ffn, attention - 1);
    assert (attention - 1) * ffn == ffn * attention - ffn;
  }

  lemma OwnerInRange(a: int, attention: int, ffn: int)
    requires 0 < ffn && 0 <= a < attention
    ensures 0 <= Owner(a, attention, ffn) < ffn
  {
    MulMonotone(0, a, ffn);
    MulMonotone(a + 1, attention, ffn);
    assert (a + 1) * ffn == a * ffn + ffn;
    assert attention * ffn == ffn * attention;
    var q := Owner(a, attention, ffn);
    assert q * attention <= a * ffn < (q + 1) * attention;
    if q >= ffn {
      MulMonotone(ffn, q, attention);
    }
    if q < 0 {
      MulMonotone(q + 1, 0, attention);
    }
  }

  /** A block has the rounded-down or the rounded-up share of the Attention ranks. */
  lemma BlockSize(f: int, attention: int, ffn: int)
    requires 0 < ffn && 0 < attention && 0 <= f
    ensures var size := BlockStart(f + 1, attention, ffn) - BlockStart(f, attention, ffn);
            attention / ffn <= size <= CeilDiv(attention, ffn)
  {
    var lo, hi := BlockStart(f, attention, ffn), BlockStart(f + 1, attention, ffn);
    var q, c := attention / ffn, CeilDiv(attention, ffn);
    MulMonotone(0, f, attention);
    assert (f + 1) * attention == f * attention + attention;
    CeilDivAtMost(f * attention, ffn, lo);
    CeilDivAtMost(attention, ffn, c);
    CeilDivAtMost((f + 1) * attention, ffn, lo + c);
    assert (lo + c) * ffn == lo * ffn + c * ffn;
    CeilDivAtMost((f + 1) * attention, ffn, hi);
    CeilDivAtMost(f * attention, ffn, hi - q);
    assert (hi - q) * ffn == hi * ffn - q * ffn;
  }

  /** Every subgroup has an Attention rank, and two subgroups differ by at most one. */
  lemma BlocksAreBalanced(f: int, g: int, attention: int, ffn: int)
    requires 0 < ffn <= attention && 0 <= f && 0 <= g
    ensures var sizeF := BlockStart(f + 1, attention, ffn) - BlockStart(f, attention, ffn);
            var sizeG := BlockStart(g + 1, attention, ffn) - BlockStart(g, attention, ffn);
            1 <= sizeF && sizeF - sizeG <= 1
  {
    BlockSize(f, attention, ffn);
    BlockSize(g, attention, ffn);
    CeilDivAtMost(attention, ffn, attention / ffn + 1);
    assert (attention / ffn + 1) * ffn == attention / ffn * ffn + ffn;
    QuotientIs(attention, ffn, attention / ffn);
  }

  lemma {:induction false} BlockStartsRise(f: int, g: int, attention: int, ffn: int)
    requires 0 < ffn <= attention && 0 <= f <= g
    ensures BlockStart(f, attention, ffn) + (g - f) <= BlockStart(g, attention, ffn)
    decreases g - f
  {
    if f < g {
      BlocksAreBalanced(g - 1, g - 1, attention, ffn);
      BlockStartsRise(f, g - 1, attention, ffn);
    }
  }

  // ------------------------------------------------------------- rank mapping

  datatype Role = Attention | Ffn

  datatype RankMapping = RankMapping(role: Role, roleRank: int, worldRank: int, p2pRank: int, attention: int, ffn: int,
                                     minSize: int, subgroup: int, rankInSubgroup: int, roster: seq<int>, destinations: seq<int>)

  datatype MappingResult = Mapped(mapping: RankMapping) | TooFewAttentionRanks | BadRoleRank

  /** World ranks of a subgroup: the FFN rank, then its Attention ranks. */
  function Roster(f: int, attention: int, ffn: int): (r: seq<int>)
    requires 0 < ffn <= attention && 0 <= f
    ensures |r| == 1 + BlockStart(f + 1, attention, ffn) - BlockStart(f, attention, ffn) >= 2 && r[0] == f
    ensures forall k :: 1 <= k < |r| ==> r[k] == ffn + BlockStart(f, attention, ffn) + k - 1
  {
    BlocksAreBalanced(f, f, attention, ffn);
    var lo := BlockStart(f, attention, ffn);
    [f] + seq(BlockStart(f + 1, attention, ffn) - lo, k => ffn + lo + k)
  }

  /** The FFN ranks reached from `destination` in steps of `step`. */
  function Destinations(destination: int, ffn: int, step: int): seq<int>
    requires step > 0
    decreases ffn - destination
  {
    if destination >= ffn then [] else [destination] + Destinations(destination + step, ffn, step)
  }

  function IndexOf(s: seq<int>, x: int): (i: nat)
    requires x in s
    ensures i < |s| && s[i] == x && forall k :: 0 <= k < i ==> s[k] != x
  {
    if s[0] == x then 0 else 1 + IndexOf(s[1..], x)
  }

  predicate InRange(role: Role, rank: int, attention: int, ffn: int) {
    0 <= rank < if role.Attention? then attention else ffn
  }

  function WorldRank(role: Role, rank: int, ffn: int): int {
    if role.Attention? then ffn + rank else rank
  }

  function Subgroup(role: Role, rank: int, attention: int, ffn: int): int
    requires attention > 0
  {
    if role.Attention? then Owner(rank, attention, ffn) else rank
  }

  lemma WorldRankIsInRoster(role: Role, rank: int, attention: int, ffn: int)
    requires 0 < ffn <= attention && InRange(role, rank, attention, ffn)
    ensures var f := Subgroup(role, rank, attention, ffn);
            && 0 <= f < ffn && WorldRank(role, rank, ffn) in Roster(f, attention, ffn)
            && (role.Attention? ==> InBlock(rank, f, attention, ffn))
  {
    var f := Subgroup(role, rank, attention, ffn);
    if role.Attention? {
      OwnerInRange(rank, attention, ffn);
      OwnerIffInBlock(rank, f, attention, ffn);
      assert Roster(f, attention, ffn)[1 + rank - BlockStart(f, attention, ffn)] == ffn + rank;
    } else {
      assert Roster(f, attention, ffn)[0] == rank;
    }
  }

  /** build_rank_mapping for one process; configured sizes are positive. */
  method BuildRankMapping(role: Role, rank: int, attention: int, ffn: int) returns (r: MappingResult)
    requires attention > 0 && ffn > 0
    ensures r.TooFewAttentionRanks? <==> attention < ffn
    ensures r.BadRoleRank? <==> attention >= ffn && !InRange(role, rank, attention, ffn)
    ensures r.Mapped? ==> r.mapping == MappingOf(role, rank, attention, ffn)
  {
    hide Roster, BlockStart, Owner;
    if attention < ffn {
      return TooFewAttentionRanks;
    }
    if rank < 0 || (role.Attention? && rank >= attention) || (role.Ffn? && rank >= ffn) {
      return BadRoleRank;
    }
    WorldRankIsInRoster(role, rank, attention, ffn);
    var worldRank, subgroup := WorldRank(role, rank, ffn), Subgroup(role, rank, attention, ffn);
    var minSize := if ffn <= attention then ffn else attention;
    var roster := Roster(subgroup, attention, ffn);
    var p2pRank := if role.Attention? then rank + minSize else rank;
    var destinations: seq<int> := [];
    if ffn <= worldRank < ffn + minSize {
      var destination := worldRank - ffn;
      while destination < ffn
        invariant destinations + Destinations(destination, ffn, minSize) == Destinations(worldRank - ffn, ffn, minSize)
      {
        destinations := destinations + [destination];
        destination := destination + minSize;
      }
    }
    return Mapped(RankMapping(role, rank, worldRank, p2pRank, attention, ffn, minSize, subgroup,
                              IndexOf(roster, worldRank), roster, destinations));
  }

  function MappingOf(role: Role, rank: int, attention: int, ffn: int): (m: RankMapping)
    requires 0 < ffn <= attention && InRange(role, rank, attention, ffn)
    ensures 0 <= m.subgroup < ffn && 0 <= m.rankInSubgroup < |m.roster| && m.roster[m.rankInSubgroup] == m.worldRank
  {
    WorldRankIsInRoster(role, rank, attention, ffn);
    var f := Subgroup(role, rank, attention, ffn);
    var roster := Roster(f, attention, ffn);
    RankMapping(role, rank, WorldRank(role, rank, ffn), if role.Attention? then rank + ffn else rank, attention, ffn, ffn, f,
                IndexOf(roster, WorldRank(role, rank, ffn)), roster,
                if role.Attention? && rank < ffn then Destinations(rank, ffn, ffn) else [])
  }

  /** A process is on a roster exactly when it belongs to that subgroup. */
  lemma RosterListsMembers(role: Role, rank: int, f: int, attention: int, ffn: int)
    requires 0 < ffn <= attention && InRange(role, rank, attention, ffn) && 0 <= f < ffn
    ensures WorldRank(role, rank, ffn) in Roster(f, attention, ffn) <==> Subgroup(role, rank, attention, ffn) == f
  {
    hide BlockStart, Owner;
    WorldRankIsInRoster(role, rank, attention, ffn);
    var roster := Roster(f, attention, ffn);
    if role.Attention? {
      OwnerIffInBlock(rank, f, attention, ffn);
      if ffn + rank in roster {
        var k :| 0 <= k < |roster| && roster[k] == ffn + rank;
        assert k > 0;
      }
    } else if rank in roster {
      BlocksCover(attention, ffn);
      BlockStartsRise(0, f, attention, ffn);
    }
  }

  /** All members of a subgroup compute the same roster, and each finds itself in it. */
  lemma MembersAgree(role1: Role, rank1: int, role2: Role, rank2: int, attention: int, ffn: int)
    requires 0 < ffn <= attention && InRange(role1, rank1, attention, ffn) && InRange(role2, rank2, attention, ffn)
    ensures var m1, m2 := MappingOf(role1, rank1, attention, ffn), MappingOf(role2, rank2, attention, ffn);
            && (m1.worldRank in m2.roster <==> m1.subgroup == m2.subgroup)
            && (m1.subgroup == m2.subgroup ==> m1.roster == m2.roster)
            && m1.roster[m1.rankInSubgroup] == m1.worldRank
  {
    hide BlockStart, Owner, Roster, WorldRank;
    WorldRankIsInRoster(role1, rank1, attention, ffn);
    WorldRankIsInRoster(role2, rank2, attention, ffn);
    RosterListsMembers(role1, rank1, Subgroup(role2, rank2, attention, ffn), attention, ffn);
  }

  /** The Attention part of a roster: exactly the world ranks whose Attention rank is assigned to the subgroup, ascending. */
  lemma RosterIs(f: int, attention: int, ffn: int)
    requires 0 < ffn <= attention && 0 <= f < ffn
    ensures var r := Roster(f, attention, ffn);
            && r[0] == f && (forall i, j :: 1 <= i < j < |r| ==> r[i] < r[j])
            && forall w :: w in r[1..] <==> ffn <= w < ffn + attention && (w - ffn) * ffn / attention == f
  {
    hide BlockStart, Owner;
    var r := Roster(f, attention, ffn);
    BlocksCover(attention, ffn);
    BlockStartsRise(0, f, attention, ffn);
    BlockStartsRise(f + 1, ffn, attention, ffn);
    forall w
      ensures w in r[1..] <==> ffn <= w < ffn + attention && (w - ffn) * ffn / attention == f
    {
      if w in r[1..] {
        var k :| 0 <= k < |r[1..]| && r[1..][k] == w;
        assert w == r[k + 1];
      }
      if ffn <= w < ffn + attention {
        OwnerIffInBlock(w - ffn, f, attention, ffn);
        IsOwner(w - ffn, attention, ffn);
        if InBlock(w - ffn, f, attention, ffn) {
          assert r[1..][w - ffn - BlockStart(f, attention, ffn)] == w;
        }
      }
    }
  }

  lemma IsOwner(a: int, attention: int, ffn: int)
    requires attention > 0
    ensures Owner(a, attention, ffn) == a * ffn / attention
  {
  }

  /** The mapping of each process, in the configured sizes alone. */
  lemma MappingMeans(role: Role, rank: int, attention: int, ffn: int)
    requires 0 < ffn <= attention && InRange(role, rank, attention, ffn)
    ensures var m := MappingOf(role, rank, attention, ffn);
            && m.role == role && m.roleRank == rank && m.attention == attention && m.ffn == ffn && m.minSize == ffn
            && m.worldRank == m.p2pRank == (if role.Attention? then ffn + rank else rank)
            && m.subgroup == (if role.Attention? then rank * ffn / attention else rank)
            && m.destinations == (if role.Attention? && rank < ffn then [rank] else [])
            && 0 <= m.rankInSubgroup < |m.roster| && m.roster[m.rankInSubgroup] == m.worldRank && m.roster[0] == m.subgroup
            && (forall i, j :: 1 <= i < j < |m.roster| ==> m.roster[i] < m.roster[j])
            && forall w :: w in m.roster[1..] <==> ffn <= w < ffn + attention && (w - ffn) * ffn / attention == m.subgroup
  {
    hide BlockStart, Roster;
    WorldRankIsInRoster(role, rank, attention, ffn);
    RosterIs(Subgroup(role, rank, attention, ffn), attention, ffn);
    if role.Attention? && rank < ffn {
      assert Destinations(rank + ffn, ffn, ffn) == [];
    }
  }

  /** Subgroup and rank within it identify the process... */
  lemma PlacesAreDistinct(role1: Role, rank1: int, role2: Role, rank2: int, attention: int, ffn: int)
    requires 0 < ffn <= attention && InRange(role1, rank1, attention, ffn) && InRange(role2, rank2, attention, ffn)
    ensures var m1, m2 := MappingOf(role1, rank1, attention, ffn), MappingOf(role2, rank2, attention, ffn);
            m1.subgroup == m2.subgroup && m1.rankInSubgroup == m2.rankInSubgroup <==> role1 == role2 && rank1 == rank2
  {
    MembersAgree(role1, rank1, role2, rank2, attention, ffn);
    MembersAgree(role2, rank2, role1, rank1, attention, ffn);
  }

  /** ... and every place of every roster is taken by one. */
  lemma PlacesAreTaken(f: int, k: nat, attention: int, ffn: int) returns (role: Role, rank: int)
    requires 0 < ffn <= attention && 0 <= f < ffn && k < |Roster(f, attention, ffn)|
    ensures InRange(role, rank, attention, ffn)
    ensures var m := MappingOf(role, rank, attention, ffn);
            m.subgroup == f && m.rankInSubgroup == k && m.roster == Roster(f, attention, ffn)
  {
    if k == 0 {
      role, rank := Ffn, f;
    } else {
      role, rank := Attention, BlockStart(f, attention, ffn) + k - 1;
      BlocksCover(attention, ffn);
      BlockStartsRise(0, f, attention, ffn);
      BlockStartsRise(f + 1, ffn, attention, ffn);
      OwnerIffInBlock(rank, f, attention, ffn);
    }
    WorldRankIsInRoster(role, rank, attention, ffn);
  }

  // ------------------------------------------------------------ control plane

  /** The steps reach exactly the FFN ranks congruent to the sender. */
  lemma {:induction false} DestinationsAre(destination: int, ffn: int, step: int, f: int)
    requires step > 0 && destination >= 0
    ensures f in Destinations(destination, ffn, step) <==> destination <= f < ffn && (f - destination) % step == 0
    decreases ffn - destination
  {
    if destination < ffn {
      DestinationsAre(destination + step, ffn, step, f);
      StepBack(f - destination, step);
    }
  }

  lemma StepBack(x: int, step: int)
    requires step > 0
    ensures (x - step) % step == x % step
    ensures 0 < x < step ==> x % step != 0
  {
    var q := x / step;
    assert x == step * q + x % step;
    assert x - step == step * (q - 1) + x % step;
    DivModIs(x - step, step, q - 1, x % step);
  }

  /** The p2p-group rank an FFN rank receives its control payload from. */
  function ControlSource(m: RankMapping): int
    requires m.minSize > 0
  {
    m.p2pRank % m.minSize + m.ffn
  }

  /** Each FFN rank is listed by exactly one sender, and listens to that sender's p2p rank. */
  lemma ControlSourceIsTheSender(f: int, a: int, attention: int, ffn: int)
    requires 0 < ffn <= attention && 0 <= f < ffn && 0 <= a < attention
    ensures var receiver, sender := MappingOf(Ffn, f, attention, ffn), MappingOf(Attention, a, attention, ffn);
            f in sender.destinations <==> sender.p2pRank == ControlSource(receiver)
  {
    WorldRankIsInRoster(Ffn, f, attention, ffn);
    WorldRankIsInRoster(Attention, a, attention, ffn);
    DivModIs(f, ffn, 0, f);
    if a < ffn {
      DestinationsAre(a, ffn, ffn, f);
      StepBack(f - a, ffn);
    }
  }
}
