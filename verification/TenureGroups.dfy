/**
 Grouping blocks by tenure: the CASE expression built in a loop from the heights at which tenures begin.
 */
module TenureGroups {
  import opened Types

  /** WHEN block_height BETWEEN low AND high THEN index */
  datatype Case = Case(low: nat, high: int, index: nat)

  /** The cases in order, then ELSE. */
  function Evaluate(cases: seq<Case>, otherwise: nat, height: nat): nat {
    if cases == [] then otherwise
    else if cases[0].low <= height <= cases[0].high then cases[0].index
    else Evaluate(cases[1..], otherwise, height)
  }

  /** Heights of the tenure changes, ascending; a block may hold more than one. */
  ghost predicate Ascending(changes: seq<nat>) {
    forall i, j :: 0 <= i < j < |changes| ==> changes[i] <= changes[j]
  }

  /** The tenure that starts at change i - 1 and ends before change i. */
  predicate InTenure(changes: seq<nat>, i: nat, height: nat)
    requires 1 <= i < |changes|
  {
    changes[i - 1] <= height < changes[i]
  }

  /** One case per tenure, numbered from 1. */
  ghost predicate AreCases(changes: seq<nat>, cases: seq<Case>) {
    && |changes| == |cases| + 1
    && (forall k :: 0 <= k < |cases| ==> cases[k] == Case(changes[k], changes[k + 1] as int - 1, k + 1))
  }

  /** The grouping: N changes back from the current tenure, or nothing if there are not enough. */
  method TenureCases(changes: seq<nat>, numTenures: nat) returns (cases: Option<seq<Case>>)
    ensures cases.None? <==> |changes| != numTenures + 1
    ensures cases.Some? ==> AreCases(changes, cases.value)
  {
    if |changes| != numTenures + 1 {
      return None;
    }
    var tenureCond: seq<Case> := [];
    var low := changes[0];
    var high: int := low;
    var i := 1;
    while i < |changes|
      invariant 1 <= i <= |changes| && |tenureCond| == i - 1 && low == changes[i - 1]
      invariant forall k :: 0 <= k < i - 1 ==> tenureCond[k] == Case(changes[k], changes[k + 1] as int - 1, k + 1)
    {
      high := changes[i] as int - 1;
      tenureCond := tenureCond + [Case(low, high, i)];
      low := changes[i];
      i := i + 1;
    }
    cases := Some(tenureCond);
  }

  lemma {:induction false} FirstMatch(cases: seq<Case>, otherwise: nat, height: nat, k: nat)
    requires k < |cases| && cases[k].low <= height <= cases[k].high
    requires forall j :: 0 <= j < k ==> !(cases[j].low <= height <= cases[j].high)
    ensures Evaluate(cases, otherwise, height) == cases[k].index
  {
    if k > 0 {
      FirstMatch(cases[1..], otherwise, height, k - 1);
    }
  }

  lemma {:induction false} NoMatch(cases: seq<Case>, otherwise: nat, height: nat)
    requires forall j :: 0 <= j < |cases| ==> !(cases[j].low <= height <= cases[j].high)
    ensures Evaluate(cases, otherwise, height) == otherwise
  {
    if cases != [] {
      NoMatch(cases[1..], otherwise, height);
    }
  }

  /** Every height between the first and the last change is in exactly one tenure. */
  lemma {:induction false} FindTenure(changes: seq<nat>, height: nat) returns (i: nat)
    requires Ascending(changes) && |changes| > 1 && changes[0] <= height < changes[|changes| - 1]
    ensures 1 <= i < |changes| && InTenure(changes, i, height)
    ensures forall j: nat :: 1 <= j < |changes| && InTenure(changes, j, height) ==> j == i
    decreases |changes|
  {
    var n := |changes| - 1;
    if changes[n - 1] <= height {
      i := n;
    } else {
      i := FindTenure(changes[..n], height);
      assert InTenure(changes[..n], i, height);
    }
    forall j: nat | 1 <= j < |changes| && j != i
      ensures !InTenure(changes, j, height)
    {
      assert j < i ==> changes[j] <= changes[i - 1];
      assert i < j ==> changes[i] <= changes[j - 1];
    }
  }

  /**
   The CASE expression gives every height of the range [first, current) the index of its tenure, from 1 to
   N, and reaches ELSE for exactly the heights outside.
   */
  lemma TenureIndex(changes: seq<nat>, cases: seq<Case>, height: nat)
    requires Ascending(changes) && AreCases(changes, cases)
    ensures var index := Evaluate(cases, |changes|, height);
      && (changes[0] <= height < changes[|changes| - 1] ==> 1 <= index <= |cases| && InTenure(changes, index, height))
      && (index == |changes| <==> !(changes[0] <= height < changes[|changes| - 1]))
  {
    if changes[0] <= height < changes[|changes| - 1] {
      var i := FindTenure(changes, height);
      forall j | 0 <= j < i - 1
        ensures !(cases[j].low <= height <= cases[j].high)
      {
        assert changes[j + 1] <= changes[i - 1];
      }
      FirstMatch(cases, |changes|, height, i - 1);
    } else {
      forall j | 0 <= j < |cases|
        ensures !(cases[j].low <= height <= cases[j].high)
      {
        assert 0 < j ==> changes[0] <= changes[j];
        assert j + 1 < |changes| - 1 ==> changes[j + 1] <= changes[|changes| - 1];
      }
      NoMatch(cases, |changes|, height);
    }
  }
}
