/** First occurrence, then filter: which rows of a batch survive when a later row with a key
    already seen is dropped and the others are sorted by a verdict. */
module Batches {

  /** No earlier row has the same key. */
  predicate IsFirst(keys: seq<string>, i: nat)
    requires i < |keys|
  {
    forall j :: 0 <= j < i ==> keys[j] != keys[i]
  }

  /** The first occurrences among the first `n` rows whose verdict is `want`, in order. */
  function Rows(keys: seq<string>, verdicts: seq<bool>, want: bool, n: nat): seq<nat>
    requires n <= |keys| == |verdicts|
  {
    if n == 0 then []
    else Rows(keys, verdicts, want, n - 1) + if IsFirst(keys, n - 1) && verdicts[n - 1] == want then [n - 1] else []
  }

  function Duplicates(keys: seq<string>, n: nat): nat
    requires n <= |keys|
  {
    if n == 0 then 0 else Duplicates(keys, n - 1) + if IsFirst(keys, n - 1) then 0 else 1
  }

  lemma {:induction false} RowsExact(keys: seq<string>, verdicts: seq<bool>, want: bool, n: nat)
    requires n <= |keys| == |verdicts|
    ensures var r := Rows(keys, verdicts, want, n);
            && (forall a :: 0 <= a < |r| ==> r[a] < n && IsFirst(keys, r[a]) && verdicts[r[a]] == want)
            && (forall a, b :: 0 <= a < b < |r| ==> r[a] < r[b])
            && (forall i :: 0 <= i < n && IsFirst(keys, i) && verdicts[i] == want ==> i in r)
  {
    if n > 0 {
      RowsExact(keys, verdicts, want, n - 1);
    }
  }

  lemma {:induction false} RowsAddUp(keys: seq<string>, verdicts: seq<bool>, n: nat)
    requires n <= |keys| == |verdicts|
    ensures |Rows(keys, verdicts, true, n)| + |Rows(keys, verdicts, false, n)| + Duplicates(keys, n) == n
  {
    if n > 0 {
      RowsAddUp(keys, verdicts, n - 1);
    }
  }

  lemma {:induction false} FirstOccurrence(keys: seq<string>, i: nat) returns (first: nat)
    requires i < |keys|
    ensures first <= i && IsFirst(keys, first) && keys[first] == keys[i]
  {
    if IsFirst(keys, i) {
      first := i;
    } else {
      var j: nat :| j < i && keys[j] == keys[i];
      first := FirstOccurrence(keys, j);
    }
  }

  /** Some surviving row with that verdict has key `key`. */
  predicate Lands(keys: seq<string>, verdicts: seq<bool>, want: bool, key: string)
    requires |keys| == |verdicts|
  {
    exists i <- Rows(keys, verdicts, want, |keys|) :: i < |keys| && keys[i] == key
  }

  /** Landing, seen on a list that carries the keys of the surviving rows. */
  lemma LandsInList(keys: seq<string>, verdicts: seq<bool>, want: bool, listed: seq<string>, key: string)
    requires |keys| == |verdicts|
    requires var r := Rows(keys, verdicts, want, |keys|);
             |listed| == |r| && forall a :: 0 <= a < |r| ==> r[a] < |keys| && listed[a] == keys[r[a]]
    ensures key in listed <==> Lands(keys, verdicts, want, key)
  {
    var r := Rows(keys, verdicts, want, |keys|);
    if Lands(keys, verdicts, want, key) {
      var a :| 0 <= a < |r| && r[a] < |keys| && keys[r[a]] == key;
      assert listed[a] == key;
    }
    if key in listed {
      var a :| 0 <= a < |listed| && listed[a] == key;
      assert r[a] in r;
    }
  }

  lemma LandsByFirst(keys: seq<string>, verdicts: seq<bool>, want: bool, first: nat)
    requires first < |keys| == |verdicts| && IsFirst(keys, first)
    ensures Lands(keys, verdicts, want, keys[first]) <==> verdicts[first] == want
  {
    var r := Rows(keys, verdicts, want, |keys|);
    RowsExact(keys, verdicts, want, |keys|);
    if verdicts[first] == want {
      assert first in r;
    }
    if Lands(keys, verdicts, want, keys[first]) {
      var i :| i in r && i < |keys| && keys[i] == keys[first];
      var a :| 0 <= a < |r| && r[a] == i;
      assert IsFirst(keys, r[a]) && verdicts[r[a]] == want;
      assert i == first;
    }
  }

  /** Every key lands exactly once, with the verdict of its first row. */
  lemma EachKeyLandsOnce(keys: seq<string>, verdicts: seq<bool>, i: nat) returns (first: nat)
    requires i < |keys| == |verdicts|
    ensures first <= i && IsFirst(keys, first) && keys[first] == keys[i]
    ensures Lands(keys, verdicts, true, keys[i]) <==> verdicts[first]
    ensures Lands(keys, verdicts, false, keys[i]) <==> !verdicts[first]
  {
    first := FirstOccurrence(keys, i);
    LandsByFirst(keys, verdicts, true, first);
    LandsByFirst(keys, verdicts, false, first);
  }

  /** With different keys and only good verdicts every row survives. */
  lemma {:induction false} AllSurvive(keys: seq<string>, verdicts: seq<bool>, n: nat)
    requires n <= |keys| == |verdicts|
    requires forall a, b :: 0 <= a < b < |keys| ==> keys[a] != keys[b]
    requires forall a :: 0 <= a < |verdicts| ==> verdicts[a]
    ensures Rows(keys, verdicts, true, n) == seq(n, i => i)
    ensures Rows(keys, verdicts, false, n) == [] && Duplicates(keys, n) == 0
  {
    if n > 0 {
      AllSurvive(keys, verdicts, n - 1);
      assert IsFirst(keys, n - 1);
      assert seq(n, i => i) == seq(n - 1, i => i) + [n - 1];
    }
  }
}
