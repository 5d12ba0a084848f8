/** The state-wise affordability heatmap
    (src/components/StateAffordabilityHeatmap.tsx): every state paired with
    its impact, sorted by descending impact, the critical states (impact
    above 40), and the colour buckets of the cards. */
module StateAffordabilityHeatmap {
  import opened JsMath
  import opened StateData

  datatype StateImpact = StateImpact(state: StateRecord, impact: real)

  predicate AllWellFormed(states: seq<StateRecord>)
  {
    forall i :: 0 <= i < |states| ==> WellFormed(states[i])
  }

  /** `indianStates.map(state => ({...state, impact: ...}))`. */
  function WithImpact(states: seq<StateRecord>, priceIncrease: real): (r: seq<StateImpact>)
    requires AllWellFormed(states)
    ensures |r| == |states|
    ensures forall i :: 0 <= i < |r| ==>
      r[i].state == states[i] && r[i].impact == AffordabilityImpact(states[i], priceIncrease)
  {
    if states == [] then []
    else [StateImpact(states[0], AffordabilityImpact(states[0], priceIncrease))] + WithImpact(states[1..], priceIncrease)
  }

  // ---------------------------------------------------------------- the sort

  predicate SortedDescending(s: seq<StateImpact>)
  {
    forall i, j :: 0 <= i < j < |s| ==> s[i].impact >= s[j].impact
  }

  /** Insert `x`, which came earlier in the input than every element of `s`,
      before the first element whose impact is not larger: ties keep input
      order, as `Array.prototype.sort` is stable. */
  function Insert(x: StateImpact, s: seq<StateImpact>): (r: seq<StateImpact>)
    ensures |r| == |s| + 1 && x in r
  {
    if s == [] || s[0].impact <= x.impact then [x] + s
    else [s[0]] + Insert(x, s[1..])
  }

  /** `.sort((a, b) => b.impact - a.impact)`, a stable sort by descending impact. */
  function Sort(s: seq<StateImpact>): (r: seq<StateImpact>)
    ensures |r| == |s|
  {
    if s == [] then [] else Insert(s[0], Sort(s[1..]))
  }

  lemma {:induction false} InsertPermutes(x: StateImpact, s: seq<StateImpact>)
    ensures multiset(Insert(x, s)) == multiset(s) + multiset{x}
  {
    if s != [] && s[0].impact > x.impact {
      InsertPermutes(x, s[1..]);
      assert s == [s[0]] + s[1..];
    }
  }

  lemma {:induction false} InsertSorted(x: StateImpact, s: seq<StateImpact>)
    requires SortedDescending(s)
    ensures SortedDescending(Insert(x, s))
  {
    if s != [] && s[0].impact > x.impact {
      InsertSorted(x, s[1..]);
      InsertPermutes(x, s[1..]);
      var t := Insert(x, s[1..]);
      forall k | 0 <= k < |t| ensures t[k].impact <= s[0].impact {
        assert t[k] in multiset(t);
        assert t[k] == x || t[k] in multiset(s[1..]);
        if t[k] != x {
          var m :| 0 <= m < |s[1..]| && s[1..][m] == t[k];
          assert s[m + 1] == t[k];
        }
      }
    }
  }

  /** The sort yields a descending permutation of its input. */
  lemma {:induction false} SortCorrect(s: seq<StateImpact>)
    ensures SortedDescending(Sort(s))
    ensures multiset(Sort(s)) == multiset(s)
  {
    if s != [] {
      SortCorrect(s[1..]);
      InsertSorted(s[0], Sort(s[1..]));
      InsertPermutes(s[0], Sort(s[1..]));
      assert s == [s[0]] + s[1..];
    }
  }

  /** Being stable, the sort leaves an already descending list as it is. */
  lemma {:induction false} SortKeepsSorted(s: seq<StateImpact>)
    requires SortedDescending(s)
    ensures Sort(s) == s
  {
    if s != [] {
      SortKeepsSorted(s[1..]);
      assert s == [s[0]] + s[1..];
    }
  }

  /** The table rows with their impacts, in table order. */
  function TableWithImpact(priceIncrease: real): seq<StateImpact>
  {
    TableShape();
    WithImpact(IndianStates, priceIncrease)
  }

  /** `statesWithImpact`. */
  function StatesWithImpact(priceIncrease: real): (r: seq<StateImpact>)
    ensures |r| == 15
  {
    Sort(TableWithImpact(priceIncrease))
  }

  /** The heatmap list is the fifteen states, each with its impact, sorted by
      descending impact; because every state has the same impact, the stable
      sort keeps table order. */
  lemma HeatmapList(priceIncrease: real)
    ensures var s := StatesWithImpact(priceIncrease);
      && SortedDescending(s)
      && |s| == 15
      && s == TableWithImpact(priceIncrease)
      && (forall i :: 0 <= i < |s| ==> s[i].state == IndianStates[i] && s[i].impact == Min(100.0, priceIncrease))
  {
    TableShape();
    var m := TableWithImpact(priceIncrease);
    assert SortedDescending(m);
    SortKeepsSorted(m);
    SortCorrect(m);
  }

  /** `statesWithImpact.slice(0, 15)` shows every state. */
  lemma SliceShowsAll(priceIncrease: real)
    ensures |StatesWithImpact(priceIncrease)| == 15 &&
            StatesWithImpact(priceIncrease)[..15] == StatesWithImpact(priceIncrease)
  {
    HeatmapList(priceIncrease);
  }

  // ---------------------------------------------------------------- critical states

  /** `statesWithImpact.filter(s => s.impact > 40)`. */
  function Critical(s: seq<StateImpact>): (r: seq<StateImpact>)
    ensures |r| <= |s|
    ensures forall i :: 0 <= i < |r| ==> r[i].impact > 40.0
  {
    if s == [] then []
    else if s[0].impact > 40.0 then [s[0]] + Critical(s[1..])
    else Critical(s[1..])
  }

  lemma {:induction false} CriticalMembership(s: seq<StateImpact>, x: StateImpact)
    ensures x in Critical(s) <==> x in s && x.impact > 40.0
  {
    if s != [] {
      CriticalMembership(s[1..], x);
      assert s == [s[0]] + s[1..];
    }
  }

  lemma {:induction false} CriticalAllOrNone(s: seq<StateImpact>, impact: real)
    requires forall i :: 0 <= i < |s| ==> s[i].impact == impact
    ensures Critical(s) == if impact > 40.0 then s else []
  {
    if s != [] {
      CriticalAllOrNone(s[1..], impact);
      assert s == [s[0]] + s[1..];
    }
  }

  /** The critical states are exactly those with impact above 40, and there
      are always none or all fifteen of them. */
  lemma CriticalCount(priceIncrease: real)
    ensures forall x :: x in Critical(StatesWithImpact(priceIncrease)) <==>
      x in StatesWithImpact(priceIncrease) && x.impact > 40.0
    ensures |Critical(StatesWithImpact(priceIncrease))| == if priceIncrease > 40.0 then 15 else 0
  {
    HeatmapList(priceIncrease);
    var s := StatesWithImpact(priceIncrease);
    forall x ensures x in Critical(s) <==> x in s && x.impact > 40.0 {
      CriticalMembership(s, x);
    }
    CriticalAllOrNone(s, Min(100.0, priceIncrease));
  }

  // ---------------------------------------------------------------- colours

  datatype Bucket = Red | Orange | Yellow | Green

  /** The thresholds shared by the three colourings. */
  function ImpactBucket(impact: real): (b: Bucket)
    ensures b == Red <==> impact > 60.0
    ensures b == Orange <==> 40.0 < impact <= 60.0
    ensures b == Yellow <==> 20.0 < impact <= 40.0
    ensures b == Green <==> impact <= 20.0
  {
    if impact > 60.0 then Red
    else if impact > 40.0 then Orange
    else if impact > 20.0 then Yellow
    else Green
  }

  /** `getImpactColor`: the bullet. */
  function BulletColour(impact: real): (c: string)
    ensures c == "bg-red-500" <==> ImpactBucket(impact) == Red
    ensures c == "bg-orange-500" <==> ImpactBucket(impact) == Orange
    ensures c == "bg-yellow-500" <==> ImpactBucket(impact) == Yellow
    ensures c == "bg-green-500" <==> ImpactBucket(impact) == Green
  {
    DistinctColours();
    if impact > 60.0 then "bg-red-500"
    else if impact > 40.0 then "bg-orange-500"
    else if impact > 20.0 then "bg-yellow-500"
    else "bg-green-500"
  }

  /** `getImpactTextColor`: the impact figure. */
  function TextColour(impact: real): (c: string)
    ensures c == "text-red-700" <==> ImpactBucket(impact) == Red
    ensures c == "text-orange-700" <==> ImpactBucket(impact) == Orange
    ensures c == "text-yellow-700" <==> ImpactBucket(impact) == Yellow
    ensures c == "text-green-700" <==> ImpactBucket(impact) == Green
  {
    DistinctColours();
    if impact > 60.0 then "text-red-700"
    else if impact > 40.0 then "text-orange-700"
    else if impact > 20.0 then "text-yellow-700"
    else "text-green-700"
  }

  /** The card's inline border colour. */
  function BorderColour(impact: real): (c: string)
    ensures c == "#ef4444" <==> ImpactBucket(impact) == Red
    ensures c == "#f97316" <==> ImpactBucket(impact) == Orange
    ensures c == "#eab308" <==> ImpactBucket(impact) == Yellow
    ensures c == "#22c55e" <==> ImpactBucket(impact) == Green
  {
    DistinctColours();
    if impact > 60.0 then "#ef4444"
    else if impact > 40.0 then "#f97316"
    else if impact > 20.0 then "#eab308"
    else "#22c55e"
  }

  /** Bullet, text and border colours always agree: each one tells two
      impacts apart exactly when their buckets differ. */
  lemma ColoursAgree(a: real, b: real)
    ensures BulletColour(a) == BulletColour(b) <==> ImpactBucket(a) == ImpactBucket(b)
    ensures TextColour(a) == TextColour(b) <==> ImpactBucket(a) == ImpactBucket(b)
    ensures BorderColour(a) == BorderColour(b) <==> ImpactBucket(a) == ImpactBucket(b)
  {
    DistinctColours();
  }

  lemma DistinctColours()
    ensures "bg-red-500"[3] == 'r' && "bg-orange-500"[3] == 'o' && "bg-yellow-500"[3] == 'y' && "bg-green-500"[3] == 'g'
    ensures "text-red-700"[5] == 'r' && "text-orange-700"[5] == 'o' && "text-yellow-700"[5] == 'y' && "text-green-700"[5] == 'g'
    ensures "#ef4444"[1] == 'e' && "#f97316"[1] == 'f' && "#eab308"[2] == 'a' && "#ef4444"[2] == 'f' && "#22c55e"[1] == '2'
    ensures "#f97316"[2] == '9' && "#eab308"[1] == 'e'
  {
  }
}
