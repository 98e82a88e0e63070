/**
 * The daemon's routing sets are `BTreeSet<(NodeId, DataId)>`: sets whose
 * iteration order is ascending. They are modelled as strictly ascending
 * sequences, so that iterating them is iterating the sequence.
 */
module OrderedSet {
  import opened Ids

  ghost predicate StrictlySorted(s: seq<InputId>)
  {
    forall i, j :: 0 <= i < j < |s| ==> IdLess(s[i], s[j])
  }

  /** BTreeSet::insert: adds `x` at its place; an element already present stays once. */
  function Insert(s: seq<InputId>, x: InputId): (r: seq<InputId>)
    ensures forall y :: y in r <==> y in s || y == x
    ensures StrictlySorted(s) ==> StrictlySorted(r)
    ensures StrictlySorted(s) && x in s ==> r == s
  {
    if |s| == 0 then [x]
    else if x == s[0] then s
    else if IdLess(x, s[0]) then
      InsertFrontSorted(s, x);
      [x] + s
    else
      var rest := Insert(s[1..], x);
      assert s == [s[0]] + s[1..];
      InsertBehindSorted(s, x, rest);
      [s[0]] + rest
  }

  /** Putting an element smaller than the head in front keeps a sorted sequence sorted. */
  lemma InsertFrontSorted(s: seq<InputId>, x: InputId)
    requires |s| > 0 && IdLess(x, s[0])
    ensures StrictlySorted(s) ==> StrictlySorted([x] + s) && x !in s
  {
    if StrictlySorted(s) {
      forall j | 1 <= j < |s| ensures IdLess(x, s[j]) {
        IdLessTransitive(x, s[0], s[j]);
      }
      IdLessIrreflexive(x);
    }
  }

  lemma InsertBehindSorted(s: seq<InputId>, x: InputId, rest: seq<InputId>)
    requires |s| > 0 && x != s[0] && !IdLess(x, s[0])
    requires forall y :: y in rest <==> y in s[1..] || y == x
    requires StrictlySorted(s[1..]) ==> StrictlySorted(rest)
    ensures StrictlySorted(s) ==> StrictlySorted([s[0]] + rest)
  {
    if StrictlySorted(s) {
      IdLessTotal(x, s[0]);
      forall j | 0 <= j < |rest| ensures IdLess(s[0], rest[j]) {
        assert rest[j] in rest;
        if rest[j] != x {
          var k :| 0 <= k < |s[1..]| && s[1..][k] == rest[j];
          assert s[k + 1] == rest[j];
        }
      }
    }
  }

  /** A BTreeSet holds each element once. */
  lemma SortedHasNoDuplicates(s: seq<InputId>, i: int, j: int)
    requires StrictlySorted(s)
    requires 0 <= i < |s| && 0 <= j < |s| && s[i] == s[j]
    ensures i == j
  {
    if i < j || j < i {
      IdLessIrreflexive(s[i]);
    }
  }
}
