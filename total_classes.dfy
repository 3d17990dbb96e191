/** The highlighting of the totals row (`getTotalClasses`): every total gets one
    CSS class name, 'equal', 'high', 'low' or none. */
module TotalClasses {

  /** The class names 'equal', 'high', 'low' and '' of lines 90-93. */
  datatype Label = Equal | High | Low | Unmarked

  /** `Math.max` over a non-empty list. */
  function Max(s: seq<int>): (m: int)
    requires |s| > 0
    ensures m in s
    ensures forall k :: 0 <= k < |s| ==> s[k] <= m
  {
    if |s| == 1 then s[0]
    else
      var rest := Max(s[1..]);
      if s[0] >= rest then s[0] else rest
  }

  /** `Math.min` over a non-empty list. */
  function Min(s: seq<int>): (m: int)
    requires |s| > 0
    ensures m in s
    ensures forall k :: 0 <= k < |s| ==> m <= s[k]
  {
    if |s| == 1 then s[0]
    else
      var rest := Min(s[1..]);
      if s[0] <= rest then s[0] else rest
  }

  predicate AllEqual(s: seq<int>)
  {
    forall i, j :: 0 <= i < |s| && 0 <= j < |s| ==> s[i] == s[j]
  }

  /** Nobody's total exceeds that of player `i`. */
  ghost predicate IsMaximal(s: seq<int>, i: int)
    requires 0 <= i < |s|
  {
    forall j :: 0 <= j < |s| ==> s[j] <= s[i]
  }

  /** Nobody's total is below that of player `i`. */
  ghost predicate IsMinimal(s: seq<int>, i: int)
    requires 0 <= i < |s|
  {
    forall j :: 0 <= j < |s| ==> s[i] <= s[j]
  }

  /** The label of one total, given the whole row and its maximum and minimum. */
  function LabelOf(totals: seq<int>, total: int, max: int, min: int): Label
  {
    if forall t :: t in totals ==> t == total then Equal
    else if total == max then High
    else if total == min then Low
    else Unmarked
  }

  /** `getTotalClasses`: one label per total. */
  function GetTotalClasses(totals: seq<int>): (labels: seq<Label>)
    requires |totals| > 0
    ensures |labels| == |totals|
  {
    var max := Max(totals);
    var min := Min(totals);
    seq(|totals|, i requires 0 <= i < |totals| => LabelOf(totals, totals[i], max, min))
  }

  /** A total is labelled 'equal' exactly when all totals are equal; then all are. */
  lemma EqualIffAllEqual(totals: seq<int>)
    requires |totals| > 0
    ensures forall i :: 0 <= i < |totals| ==> (GetTotalClasses(totals)[i] == Equal <==> AllEqual(totals))
  {
    var labels := GetTotalClasses(totals);
    forall i | 0 <= i < |totals|
      ensures labels[i] == Equal <==> AllEqual(totals)
    {
      if AllEqual(totals) {
        forall t | t in totals ensures t == totals[i] {
          var k :| 0 <= k < |totals| && totals[k] == t;
        }
      } else {
        var a, b :| 0 <= a < |totals| && 0 <= b < |totals| && totals[a] != totals[b];
        assert totals[a] in totals && totals[b] in totals;
      }
    }
  }

  /** When the totals differ, every largest total is 'high', every smallest total
      is 'low' and every other total is unmarked. */
  lemma HighLowWhenUnequal(totals: seq<int>)
    requires |totals| > 0 && !AllEqual(totals)
    ensures forall i :: 0 <= i < |totals| ==>
      && (GetTotalClasses(totals)[i] == High <==> IsMaximal(totals, i))
      && (GetTotalClasses(totals)[i] == Low <==> IsMinimal(totals, i))
      && (GetTotalClasses(totals)[i] == Unmarked <==> !IsMaximal(totals, i) && !IsMinimal(totals, i))
  {
    var labels := GetTotalClasses(totals);
    var max, min := Max(totals), Min(totals);
    EqualIffAllEqual(totals);
    var a, b :| 0 <= a < |totals| && 0 <= b < |totals| && totals[a] != totals[b];
    assert min < max by {
      assert min <= totals[a] <= max && min <= totals[b] <= max;
    }
    forall i | 0 <= i < |totals|
      ensures labels[i] == High <==> IsMaximal(totals, i)
      ensures labels[i] == Low <==> IsMinimal(totals, i)
      ensures labels[i] == Unmarked <==> !IsMaximal(totals, i) && !IsMinimal(totals, i)
    {
      var kMax :| 0 <= kMax < |totals| && totals[kMax] == max;
      var kMin :| 0 <= kMin < |totals| && totals[kMin] == min;
      assert IsMaximal(totals, i) <==> totals[i] == max by {
        if IsMaximal(totals, i) { assert totals[kMax] <= totals[i]; }
      }
      assert IsMinimal(totals, i) <==> totals[i] == min by {
        if IsMinimal(totals, i) { assert totals[i] <= totals[kMin]; }
      }
    }
  }

  /** Equal totals get the same label: ties are not broken. */
  lemma TiesNotBroken(totals: seq<int>, i: int, j: int)
    requires 0 <= i < |totals| && 0 <= j < |totals|
    requires totals[i] == totals[j]
    ensures GetTotalClasses(totals)[i] == GetTotalClasses(totals)[j]
  {
  }

  /** When the totals differ, some total is 'high', some total is 'low', and every
      'high' total is larger than every 'low' one, so no total could be both. */
  lemma HighAboveLow(totals: seq<int>)
    requires |totals| > 0 && !AllEqual(totals)
    ensures exists i :: 0 <= i < |totals| && GetTotalClasses(totals)[i] == High
    ensures exists i :: 0 <= i < |totals| && GetTotalClasses(totals)[i] == Low
    ensures forall i, j :: 0 <= i < |totals| && 0 <= j < |totals|
              && GetTotalClasses(totals)[i] == High && GetTotalClasses(totals)[j] == Low
              ==> totals[i] > totals[j]
  {
    var labels := GetTotalClasses(totals);
    HighLowWhenUnequal(totals);
    var kMax :| 0 <= kMax < |totals| && totals[kMax] == Max(totals);
    var kMin :| 0 <= kMin < |totals| && totals[kMin] == Min(totals);
    assert IsMaximal(totals, kMax) && labels[kMax] == High;
    assert IsMinimal(totals, kMin) && labels[kMin] == Low;
    forall i, j | 0 <= i < |totals| && 0 <= j < |totals| && labels[i] == High && labels[j] == Low
      ensures totals[i] > totals[j]
    {
      var a, b :| 0 <= a < |totals| && 0 <= b < |totals| && totals[a] != totals[b];
      assert totals[j] <= totals[a] <= totals[i] && totals[j] <= totals[b] <= totals[i];
    }
  }
}
