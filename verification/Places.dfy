/** Which elements of a list a filter keeps: their places, in order. */
module Places {
  /** `at` are the places before n where `chosen` holds, in order. */
  ghost predicate Chooses(at: seq<nat>, n: nat, chosen: nat -> bool) {
    && (forall i, j :: 0 <= i < j < |at| ==> at[i] < at[j])
    && (forall m: nat :: m in at <==> m < n && chosen(m))
  }

  lemma NextPlace(at: seq<nat>, n: nat, chosen: nat -> bool, chosen': nat -> bool)
    requires Chooses(at, n, chosen) && forall m: nat :: m < n ==> chosen(m) == chosen'(m)
    ensures Chooses(if chosen'(n) then at + [n] else at, n + 1, chosen')
  {
    var longer := at + [n];
    assert forall m: nat :: m in longer <==> m in at || m == n;
    forall i | 0 <= i < |at| ensures at[i] < n { assert at[i] in at; }
  }

  lemma NoPlace(chosen: nat -> bool)
    ensures Chooses([], 0, chosen)
  {
  }
}
