/** Picking a canary backend: the resolver turns a trigger's weights into
    prefix sums (pkg/router/functionReferenceResolver.go) and findCeil searches
    them for a random number (pkg/router/functionHandler.go). */
module WeightedChoice {
  datatype Function = Function(name: string, uid: string)

  /** What the function store answers for a name. */
  datatype Stored = StoreError | Missing | Found(fn: Function)

  datatype Share = Share(name: string, weight: int, sumPrefix: int)

  datatype Resolved = Failed | Resolved(functionMap: map<string, Function>, list: seq<Share>)

  function SumBefore(list: seq<Share>, i: nat): int
    requires i <= |list|
  {
    if i == 0 then 0 else list[i - 1].sumPrefix
  }

  predicate SumsUp(list: seq<Share>, i: nat)
    requires i < |list|
  {
    list[i].sumPrefix == SumBefore(list, i) + list[i].weight
  }

  ghost predicate PrefixSums(list: seq<Share>) {
    forall i: nat :: i < |list| ==> SumsUp(list, i)
  }

  ghost predicate Lists(list: seq<Share>, name: string) {
    exists i :: 0 <= i < |list| && list[i].name == name
  }

  /** list holds each of the names once, in some order, with its weight and the sum so far. */
  ghost predicate DistributesTo(list: seq<Share>, weights: map<string, int>, names: set<string>)
    requires names <= weights.Keys
  {
    && PrefixSums(list)
    && (forall i :: 0 <= i < |list| ==> list[i].name in names && list[i].weight == weights[list[i].name])
    && (forall i, j :: 0 <= i < j < |list| ==> list[i].name != list[j].name)
    && (forall n :: n in names ==> Lists(list, n))
  }

  ghost predicate Distributes(list: seq<Share>, weights: map<string, int>) {
    DistributesTo(list, weights, weights.Keys)
  }

  lemma AppendShare(list: seq<Share>, weights: map<string, int>, names: set<string>, name: string, share: Share)
    requires names <= weights.Keys && DistributesTo(list, weights, names) && name in weights && name !in names
    requires share == Share(name, weights[name], SumBefore(list, |list|) + weights[name])
    ensures DistributesTo(list + [share], weights, names + {name})
  {
    var list' := list + [share];
    forall i: nat | i < |list'| ensures SumsUp(list', i) {
      if i < |list| { assert SumsUp(list, i); }
    }
    forall n | n in names + {name} ensures Lists(list', n) {
      if n != name {
        var i :| 0 <= i < |list| && list[i].name == n;
        assert list'[i].name == n;
      } else {
        assert list'[|list|].name == n;
      }
    }
  }

  /** The loop over the weights visits them in any order; it fails exactly when
      the store fails or misses one of the names. */
  method ResolveByFunctionWeights(weights: map<string, int>, store: string -> Stored) returns (r: Resolved)
    requires forall n :: n in weights && store(n).Found? ==> store(n).fn.name == n
    ensures r.Resolved? <==> forall n :: n in weights ==> store(n).Found?
    ensures r.Resolved? ==> Distributes(r.list, weights)
    ensures r.Resolved? ==>
      r.functionMap.Keys == weights.Keys && forall n :: n in weights ==> r.functionMap[n] == store(n).fn
  {
    var functionMap: map<string, Function> := map[];
    var list: seq<Share> := [];
    var sumPrefix := 0;
    var rest := weights.Keys;
    ghost var names := {};
    while rest != {}
      invariant rest <= weights.Keys && functionMap.Keys == weights.Keys - rest
      invariant forall n :: n in functionMap ==> store(n).Found? && functionMap[n] == store(n).fn
      invariant sumPrefix == SumBefore(list, |list|)
      invariant names == functionMap.Keys && DistributesTo(list, weights, names)
    {
      var name :| name in rest;
      var obj := store(name);
      if !obj.Found? {
        return Failed;
      }
      functionMap := functionMap[obj.fn.name := obj.fn];
      sumPrefix := sumPrefix + weights[name];
      var share := Share(name, weights[name], sumPrefix);
      AppendShare(list, weights, names, name, share);
      names := names + {name};
      list := list + [share];
      rest := rest - {name};
    }
    r := Resolved(functionMap, list);
  }

  // ----- the search, exactly as written

  /** Non-empty prefix sums of non-negative weights. */
  ghost predicate Weighted(list: seq<Share>) {
    && list != [] && PrefixSums(list)
    && forall i :: 0 <= i < |list| ==> list[i].weight >= 0
  }

  function Total(list: seq<Share>): int
    requires list != []
  {
    list[|list| - 1].sumPrefix
  }

  lemma {:induction false} SumsGrow(list: seq<Share>, i: nat, j: nat)
    requires Weighted(list) && i <= j <= |list|
    ensures 0 <= SumBefore(list, i) <= SumBefore(list, j)
    decreases j
  {
    if j > 0 {
      if i < j {
        SumsGrow(list, i, j - 1);
      } else {
        SumsGrow(list, i - 1, j - 1);
      }
      assert SumsUp(list, j - 1) && list[j - 1].weight >= 0;
    }
  }

  lemma SumsAreSorted(list: seq<Share>)
    requires Weighted(list)
    ensures forall i, j :: 0 <= i <= j < |list| ==> 0 <= list[i].sumPrefix <= list[j].sumPrefix
  {
    forall i, j | 0 <= i <= j < |list| ensures 0 <= list[i].sumPrefix <= list[j].sumPrefix {
      SumsGrow(list, i + 1, j + 1);
    }
  }

  datatype Search = Running(low: nat, high: nat) | Stopped(low: nat) | OutOfRange

  /** One turn of findCeil's loop from (low, high); mid is low + high/2. */
  function Turn(list: seq<Share>, rn: int, low: nat, high: nat): Search {
    if low >= high then Stopped(low)
    else
      var mid := low + high / 2;
      if mid >= |list| then OutOfRange
      else if rn >= list[mid].sumPrefix then Running(mid + 1, high)
      else Running(low, mid)
  }

  function Turns(list: seq<Share>, rn: int, low: nat, high: nat, k: nat): Search
    decreases k
  {
    if k == 0 then Running(low, high)
    else
      match Turn(list, rn, low, high)
      case Running(l, h) => Turns(list, rn, l, h, k - 1)
      case done => done
  }

  /** The search ends, inside the list, at index i. */
  ghost predicate ReturnsAt(list: seq<Share>, rn: int, low: nat, high: nat, i: nat) {
    i < |list| && exists k: nat :: Turns(list, rn, low, high, k) == Stopped(i)
  }

  ghost predicate FindCeilGives(list: seq<Share>, rn: int, i: nat)
    requires list != []
  {
    ReturnsAt(list, rn, 0, |list| - 1, i)
  }

  ghost predicate FindCeilReturns(list: seq<Share>, rn: int)
    requires list != []
  {
    exists i: nat :: FindCeilGives(list, rn, i)
  }

  /** What a search for the ceiling should pick: the first entry whose sum exceeds rn, else the last. */
  function Pick(list: seq<Share>, rn: int, i: nat := 0): (p: nat)
    requires i < |list|
    ensures i <= p < |list|
    ensures forall j :: i <= j < p ==> rn >= list[j].sumPrefix
    ensures p == |list| - 1 || rn < list[p].sumPrefix
    decreases |list| - i
  {
    if i == |list| - 1 || rn < list[i].sumPrefix then i else Pick(list, rn, i + 1)
  }

  lemma {:induction false} PickIs(list: seq<Share>, rn: int, i: nat, p: nat)
    requires i <= p < |list|
    requires forall j :: i <= j < p ==> rn >= list[j].sumPrefix
    requires p == |list| - 1 || rn < list[p].sumPrefix
    ensures Pick(list, rn, i) == p
    decreases p - i
  {
    if i < p {
      PickIs(list, rn, i + 1, p);
    }
  }

  /** The smallest index that a search of 0..high, for high >= 3, compares with before it is down to three entries. */
  function Pivot(high: nat): (p: nat)
    requires high >= 3
    ensures 1 <= p <= high / 2
  {
    if high <= 5 then high / 2 else Pivot(high / 2)
  }

  predicate Safe(list: seq<Share>, rn: int)
    requires list != []
  {
    |list| <= 3 || rn < list[Pivot(|list| - 1)].sumPrefix
  }

  /** Once a search of four or more entries takes the upper half, it is lost:
      it runs off the list or for ever stays where it is. */
  lemma {:induction false} UpperHalfIsLost(list: seq<Share>, rn: int, high: nat, k: nat)
    requires Weighted(list) && 3 <= high < |list|
    requires high == |list| - 1 || rn < list[high].sumPrefix
    ensures forall i: nat :: i < |list| ==> Turns(list, rn, high / 2 + 1, high, k) != Stopped(i)
    decreases k
  {
    SumsAreSorted(list);
    var low := high / 2 + 1;
    if k > 0 {
      if high % 2 == 1 {
        assert low + high / 2 == high;
        if rn < list[high].sumPrefix {
          UpperHalfIsLost(list, rn, high, k - 1);
        } else if k > 1 {
          assert Turns(list, rn, high + 1, high, k - 1) == Stopped(|list|);
        }
      } else {
        assert low + high / 2 == high + 1;
        if high < |list| - 1 {
          assert (high + 1) / 2 == high / 2;
          UpperHalfIsLost(list, rn, high + 1, k - 1);
        }
      }
    }
  }

  lemma TurnThenReturns(list: seq<Share>, rn: int, low: nat, high: nat, i: nat)
    requires Turn(list, rn, low, high).Running?
    ensures var t := Turn(list, rn, low, high);
      ReturnsAt(list, rn, low, high, i) <==> ReturnsAt(list, rn, t.low, t.high, i)
  {
    var t := Turn(list, rn, low, high);
    if ReturnsAt(list, rn, low, high, i) {
      var k: nat :| Turns(list, rn, low, high, k) == Stopped(i);
      assert Turns(list, rn, t.low, t.high, k - 1) == Stopped(i);
    }
    if ReturnsAt(list, rn, t.low, t.high, i) {
      var k: nat :| Turns(list, rn, t.low, t.high, k) == Stopped(i);
      assert Turns(list, rn, low, high, k + 1) == Stopped(i);
    }
  }

  lemma StoppedReturns(list: seq<Share>, rn: int, low: nat, high: nat)
    requires low >= high && low < |list|
    ensures ReturnsAt(list, rn, low, high, low)
  {
    assert Turns(list, rn, low, high, 1) == Stopped(low);
  }

  /** A search of 0..high returns exactly when it never has to take an upper
      half of four or more entries, and then it returns the right entry. */
  lemma {:induction false} SearchFromTop(list: seq<Share>, rn: int, high: nat)
    requires Weighted(list) && high < |list|
    requires high == |list| - 1 || rn < list[high].sumPrefix
    ensures if high < 3 || rn < list[Pivot(high)].sumPrefix
      then ReturnsAt(list, rn, 0, high, Pick(list, rn))
      else forall i: nat :: !ReturnsAt(list, rn, 0, high, i)
    decreases high
  {
    SumsAreSorted(list);
    if high == 0 {
      StoppedReturns(list, rn, 0, 0);
      PickIs(list, rn, 0, 0);
    } else {
      var mid := high / 2;
      if rn < list[mid].sumPrefix {
        TurnThenReturns(list, rn, 0, high, Pick(list, rn));
        SearchFromTop(list, rn, mid);
        if high > 5 && rn >= list[Pivot(high)].sumPrefix {
          forall i: nat ensures !ReturnsAt(list, rn, 0, high, i) { TurnThenReturns(list, rn, 0, high, i); }
        }
      } else if high < 3 {
        TurnThenReturns(list, rn, 0, high, mid + 1);
        StoppedReturns(list, rn, mid + 1, high);
        PickIs(list, rn, 0, mid + 1);
      } else {
        forall i: nat ensures !ReturnsAt(list, rn, 0, high, i) {
          TurnThenReturns(list, rn, 0, high, i);
          if ReturnsAt(list, rn, mid + 1, high, i) {
            var k: nat :| Turns(list, rn, mid + 1, high, k) == Stopped(i);
            UpperHalfIsLost(list, rn, high, k);
            assert false;
          }
        }
      }
    }
  }

  /** findCeil, with its mid as written, returns for a number rn exactly when the
      list has at most three entries or rn is below the sum at one particular
      early entry; otherwise it indexes past the list or never ends. When it
      returns, it picks the right entry. */
  lemma FindCeilReturnsIff(list: seq<Share>, rn: int)
    requires Weighted(list)
    ensures FindCeilReturns(list, rn) <==> Safe(list, rn)
    ensures Safe(list, rn) ==> FindCeilGives(list, rn, Pick(list, rn))
  {
    SearchFromTop(list, rn, |list| - 1);
    assert Safe(list, rn) ==> FindCeilGives(list, rn, Pick(list, rn));
  }

  // ----- how it fails

  /** An index past the list: while searching, or of the entry found. */
  predicate Lost(list: seq<Share>, t: Search) { t.OutOfRange? || (t.Stopped? && t.low >= |list|) }

  ghost predicate PanicsFrom(list: seq<Share>, rn: int, low: nat, high: nat) {
    exists k: nat :: Lost(list, Turns(list, rn, low, high, k))
  }

  ghost predicate HangsFrom(list: seq<Share>, rn: int, low: nat, high: nat) {
    forall k: nat :: Turns(list, rn, low, high, k).Running?
  }

  lemma TurnThenFails(list: seq<Share>, rn: int, low: nat, high: nat)
    requires Turn(list, rn, low, high).Running?
    ensures var t := Turn(list, rn, low, high);
      && (PanicsFrom(list, rn, low, high) <==> PanicsFrom(list, rn, t.low, t.high))
      && (HangsFrom(list, rn, low, high) <==> HangsFrom(list, rn, t.low, t.high))
  {
    var t := Turn(list, rn, low, high);
    assert forall k: nat :: Turns(list, rn, low, high, k + 1) == Turns(list, rn, t.low, t.high, k);
    if PanicsFrom(list, rn, low, high) {
      var k: nat :| Lost(list, Turns(list, rn, low, high, k));
      assert Lost(list, Turns(list, rn, t.low, t.high, k - 1));
    }
    if PanicsFrom(list, rn, t.low, t.high) {
      var k: nat :| Lost(list, Turns(list, rn, t.low, t.high, k));
      assert Lost(list, Turns(list, rn, low, high, k + 1));
    }
    if HangsFrom(list, rn, t.low, t.high) {
      forall k: nat ensures Turns(list, rn, low, high, k).Running? {
        if k > 0 { assert Turns(list, rn, low, high, k) == Turns(list, rn, t.low, t.high, k - 1); }
      }
    }
  }

  /** In the upper half of 0..high the search leaves the list if that is its end
      and high is even or rn not below the total; otherwise it stays for ever. */
  predicate LeavesList(list: seq<Share>, rn: int, high: nat)
    requires high < |list|
  {
    high == |list| - 1 && (high % 2 == 0 || rn >= list[high].sumPrefix)
  }

  lemma {:induction false} UpperHalfStays(list: seq<Share>, rn: int, high: nat, k: nat)
    requires Weighted(list) && 3 <= high < |list| && !LeavesList(list, rn, high)
    requires high == |list| - 1 || rn < list[high].sumPrefix
    ensures Turns(list, rn, high / 2 + 1, high, k).Running?
    decreases k
  {
    SumsAreSorted(list);
    if k > 0 {
      if high % 2 == 1 {
        assert high / 2 + 1 + high / 2 == high;
        UpperHalfStays(list, rn, high, k - 1);
      } else {
        assert high / 2 + 1 + high / 2 == high + 1;
        assert (high + 1) / 2 == high / 2;
        UpperHalfStays(list, rn, high + 1, k - 1);
      }
    }
  }

  lemma UpperHalfFate(list: seq<Share>, rn: int, high: nat)
    requires Weighted(list) && 3 <= high < |list|
    requires high == |list| - 1 || rn < list[high].sumPrefix
    ensures PanicsFrom(list, rn, high / 2 + 1, high) <==> LeavesList(list, rn, high)
    ensures HangsFrom(list, rn, high / 2 + 1, high) <==> !LeavesList(list, rn, high)
  {
    var low := high / 2 + 1;
    if LeavesList(list, rn, high) {
      if high % 2 == 0 {
        assert Turns(list, rn, low, high, 1) == OutOfRange;
      } else {
        assert Turn(list, rn, low, high) == Running(high + 1, high);
        assert Turns(list, rn, low, high, 2) == Turns(list, rn, high + 1, high, 1) == Stopped(|list|);
      }
    } else {
      forall k: nat ensures Turns(list, rn, low, high, k).Running? { UpperHalfStays(list, rn, high, k); }
    }
  }

  lemma {:induction false} FateFromTop(list: seq<Share>, rn: int, high: nat)
    requires Weighted(list) && 3 <= high < |list| && rn >= list[Pivot(high)].sumPrefix
    requires high == |list| - 1 || rn < list[high].sumPrefix
    ensures PanicsFrom(list, rn, 0, high) <==> rn >= list[high / 2].sumPrefix && LeavesList(list, rn, high)
    ensures HangsFrom(list, rn, 0, high) <==> !PanicsFrom(list, rn, 0, high)
    decreases high
  {
    TurnThenFails(list, rn, 0, high);
    if rn >= list[high / 2].sumPrefix {
      UpperHalfFate(list, rn, high);
    } else {
      FateFromTop(list, rn, high / 2);
    }
  }

  /** When findCeil does not return it indexes past the list, exactly for a
      number at or above the middle sum where the last index is even or the
      number is not below the total; for every other one it never ends. */
  lemma FindCeilFailsHow(list: seq<Share>, rn: int)
    requires Weighted(list) && !Safe(list, rn)
    ensures var last := |list| - 1;
      && (PanicsFrom(list, rn, 0, last) <==>
          rn >= list[last / 2].sumPrefix && (last % 2 == 0 || rn >= Total(list)))
      && (HangsFrom(list, rn, 0, last) <==> !PanicsFrom(list, rn, 0, last))
  {
    FateFromTop(list, rn, |list| - 1);
  }

  /** Four equal weights: the draws of the last two entries never come back; the very last draw panics. */
  lemma FourEntriesCanHang()
    ensures var list := [Share("a", 25, 25), Share("b", 25, 50), Share("c", 25, 75), Share("d", 25, 100)];
      && Weighted(list) && (forall rn :: 50 <= rn < 100 ==> HangsFrom(list, rn, 0, 3)) && PanicsFrom(list, 100, 0, 3)
  {
    var list := [Share("a", 25, 25), Share("b", 25, 50), Share("c", 25, 75), Share("d", 25, 100)];
    assert Weighted(list);
    forall rn | 50 <= rn <= 100 ensures if rn == 100 then PanicsFrom(list, rn, 0, 3) else HangsFrom(list, rn, 0, 3) {
      FindCeilFailsHow(list, rn);
    }
  }

  method FindCeil(randomNumber: int, list: seq<Share>) returns (name: string)
    requires Weighted(list) && Safe(list, randomNumber)
    ensures name == if randomNumber <= Total(list) then list[Pick(list, randomNumber)].name else ""
  {
    SumsAreSorted(list);
    var low := 0;
    var high := |list| - 1;
    while true
      invariant 0 <= low <= high < |list|
      invariant high == |list| - 1 || randomNumber < list[high].sumPrefix
      invariant forall j :: 0 <= j < low ==> randomNumber >= list[j].sumPrefix
      invariant low == high || (low == 0 && (high >= 3 ==> randomNumber < list[Pivot(high)].sumPrefix))
      decreases high - low
    {
      if low >= high {
        break;
      }
      var mid := low + high / 2;
      if randomNumber >= list[mid].sumPrefix {
        low := mid + 1;
      } else {
        high := mid;
      }
    }
    PickIs(list, randomNumber, 0, low);
    if list[low].sumPrefix >= randomNumber {
      return list[low].name;
    } else {
      return "";
    }
  }

  /** draw is what rand.Intn(total + 1) gave. */
  method GetCanaryBackend(rr: Resolved, weights: map<string, int>, draw: int) returns (fn: Function)
    requires rr.Resolved? && Distributes(rr.list, weights) && rr.functionMap.Keys == weights.Keys
    requires Weighted(rr.list) && 0 <= draw <= Total(rr.list) && Safe(rr.list, draw)
    ensures rr.list[Pick(rr.list, draw)].name in rr.functionMap
    ensures fn == rr.functionMap[rr.list[Pick(rr.list, draw)].name]
  {
    var fnName := FindCeil(draw, rr.list);
    fn := rr.functionMap[fnName];
  }

  // ----- how the draws are shared out

  function Draws(list: seq<Share>, i: nat): set<int>
    requires list != []
  {
    set rn | 0 <= rn <= Total(list) && Pick(list, rn) == i
  }

  lemma PickRange(list: seq<Share>, rn: int, i: nat)
    requires Weighted(list) && i < |list| && 0 <= rn <= Total(list)
    ensures Pick(list, rn) == i <==> SumBefore(list, i) <= rn && (rn < list[i].sumPrefix || i == |list| - 1)
  {
    SumsAreSorted(list);
    if SumBefore(list, i) <= rn && (rn < list[i].sumPrefix || i == |list| - 1) {
      PickIs(list, rn, 0, i);
    }
  }

  predicate Within(x: int, lo: int, hi: int) { lo <= x < hi }

  function Interval(lo: int, hi: int): set<int> { set x | lo <= x < hi && Within(x, lo, hi) }

  lemma {:induction false} IntervalSize(lo: int, hi: int)
    requires lo <= hi
    ensures |Interval(lo, hi)| == hi - lo
    decreases hi - lo
  {
    if lo == hi {
      assert Interval(lo, hi) == {};
    } else {
      IntervalSize(lo, hi - 1);
      assert Interval(lo, hi) == Interval(lo, hi - 1) + {hi - 1};
    }
  }

  /** Of the total + 1 draws, each entry is picked by as many as its weight,
      and the last entry of the list by one more, whatever its weight. */
  lemma DrawsMatchWeights(list: seq<Share>, i: nat)
    requires Weighted(list) && i < |list|
    ensures |Draws(list, i)| == list[i].weight + if i == |list| - 1 then 1 else 0
  {
    SumsAreSorted(list);
    SumsGrow(list, i, i + 1);
    assert SumsUp(list, i);
    var lo, hi := SumBefore(list, i), if i == |list| - 1 then list[i].sumPrefix + 1 else list[i].sumPrefix;
    IntervalSize(lo, hi);
    assert Draws(list, i) == Interval(lo, hi) by {
      SumsGrow(list, 0, i);
      forall rn ensures rn in Draws(list, i) <==> rn in Interval(lo, hi) {
        if 0 <= rn <= Total(list) { PickRange(list, rn, i); }
      }
    }
  }

  /** So each entry's share of the draws is within 1/(total + 1) of its weight's share:
      |draws/(total + 1) - weight/total| <= 1/(total + 1), with the fractions cleared. */
  lemma SharesAreClose(list: seq<Share>, i: nat)
    requires Weighted(list) && i < |list| && Total(list) > 0
    ensures var s, d, w := Total(list), |Draws(list, i)|, list[i].weight;
      -s <= d * s - w * (s + 1) <= s
  {
    DrawsMatchWeights(list, i);
    SumsGrow(list, 0, i);
    SumsGrow(list, i + 1, |list|);
    assert SumsUp(list, i);
    Close(Total(list), list[i].weight, |Draws(list, i)|);
  }

  lemma Close(s: int, w: int, d: int)
    requires 0 <= w <= s && w <= d <= w + 1
    ensures -s <= d * s - w * (s + 1) <= s
  {
    assert w * (s + 1) == w * s + w;
    assert (w + 1) * s == w * s + s;
    assert d == w || d == w + 1;
  }

  /** An entry is never picked exactly when its weight is 0 and it is not the
      last: a function rolled back to weight 0 still gets one draw if the
      resolver happens to list it last. */
  lemma ZeroWeightStillDrawnIffLast(list: seq<Share>, i: nat)
    requires Weighted(list) && i < |list|
    ensures Draws(list, i) == {} <==> list[i].weight == 0 && i != |list| - 1
  {
    DrawsMatchWeights(list, i);
    assert Draws(list, i) == {} <==> |Draws(list, i)| == 0;
  }

  /** After a rollback the new function has weight 0, and yet, listed last, it is drawn by 100 of 0..100. */
  lemma RolledBackIsDrawn()
    ensures var list := [Share("old", 100, 100), Share("new", 0, 100)];
      Weighted(list) && Distributes(list, map["old" := 100, "new" := 0]) && list[1].weight == 0 && 100 in Draws(list, 1)
  {
    var list := [Share("old", 100, 100), Share("new", 0, 100)];
    assert list[0].name == "old" && list[1].name == "new";
    PickRange(list, 100, 1);
  }
}
