/** Sums over every slot of every user, for comparison with a market's aggregates. */
module Aggregates {
  import opened Numeric
  import opened State

  datatype Measure = LongBase | ShortBase | OpenCount

  /** What one slot adds to a measure of a market. */
  function Weight(p: Position, index: int, measure: Measure): int {
    if p.marketIndex != index then 0 else
      match measure
      case LongBase => Max(p.baseAssetAmount, 0)
      case ShortBase => Min(p.baseAssetAmount, 0)
      case OpenCount => if p.IsOpen() then 1 else 0
  }

  function SlotsTotal(positions: seq<Position>, index: int, measure: Measure): int {
    if positions == [] then 0 else
      var n := |positions| - 1;
      SlotsTotal(positions[..n], index, measure) + Weight(positions[n], index, measure)
  }

  function UsersTotal(users: seq<User>, index: int, measure: Measure): int {
    if users == [] then 0 else
      var n := |users| - 1;
      UsersTotal(users[..n], index, measure) + SlotsTotal(users[n].positions, index, measure)
  }

  lemma {:induction false} SlotsUpdate(positions: seq<Position>, j: nat, p: Position, index: int, measure: Measure)
    requires j < |positions|
    ensures SlotsTotal(positions[j := p], index, measure)
         == SlotsTotal(positions, index, measure) - Weight(positions[j], index, measure) + Weight(p, index, measure)
  {
    var n := |positions| - 1;
    if j < n {
      assert positions[j := p][..n] == positions[..n][j := p];
      SlotsUpdate(positions[..n], j, p, index, measure);
    } else {
      assert positions[j := p][..n] == positions[..n];
    }
  }

  lemma {:induction false} UsersUpdate(users: seq<User>, u: nat, user: User, index: int, measure: Measure)
    requires u < |users|
    ensures UsersTotal(users[u := user], index, measure)
         == UsersTotal(users, index, measure)
            - SlotsTotal(users[u].positions, index, measure) + SlotsTotal(user.positions, index, measure)
  {
    var n := |users| - 1;
    if u < n {
      assert users[u := user][..n] == users[..n][u := user];
      UsersUpdate(users[..n], u, user, index, measure);
    } else {
      assert users[u := user][..n] == users[..n];
    }
  }

  lemma {:induction false} SlotsTotalSigns(positions: seq<Position>, index: int)
    ensures 0 <= SlotsTotal(positions, index, LongBase)
    ensures SlotsTotal(positions, index, ShortBase) <= 0
    ensures 0 <= SlotsTotal(positions, index, OpenCount)
  {
    if positions != [] {
      SlotsTotalSigns(positions[..|positions| - 1], index);
    }
  }

  lemma {:induction false} UsersTotalSigns(users: seq<User>, index: int)
    ensures 0 <= UsersTotal(users, index, LongBase)
    ensures UsersTotal(users, index, ShortBase) <= 0
    ensures 0 <= UsersTotal(users, index, OpenCount)
  {
    if users != [] {
      var n := |users| - 1;
      UsersTotalSigns(users[..n], index);
      SlotsTotalSigns(users[n].positions, index);
    }
  }

  /** Flat slots weigh nothing. */
  lemma {:induction false} ClosedTotals(positions: seq<Position>, index: int, measure: Measure)
    requires forall j :: 0 <= j < |positions| ==> !positions[j].IsOpen()
    ensures SlotsTotal(positions, index, measure) == 0
  {
    if positions != [] {
      ClosedTotals(positions[..|positions| - 1], index, measure);
    }
  }
}
