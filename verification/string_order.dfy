/** Python's ordering of `str` values (code point by code point, a proper
    prefix first) and the descending sort the daily statistics use. */
module StringOrder {

  /** `a < b` on Python strings. */
  predicate Less(a: string, b: string)
    decreases |a|
  {
    if |a| == 0 then |b| > 0
    else if |b| == 0 then false
    else if a[0] != b[0] then a[0] < b[0]
    else Less(a[1..], b[1..])
  }

  lemma {:induction false} LessTransitive(a: string, b: string, c: string)
    requires Less(a, b) && Less(b, c)
    ensures Less(a, c)
    decreases |a|
  {
    if |a| > 0 && a[0] == b[0] && b[0] == c[0] {
      LessTransitive(a[1..], b[1..], c[1..]);
    }
  }

  /** Distinct strings are comparable: the order is total. */
  lemma {:induction false} LessTotal(a: string, b: string)
    requires a != b
    ensures Less(a, b) || Less(b, a)
    decreases |a|
  {
    if |a| > 0 && |b| > 0 && a[0] == b[0] {
      assert a == [a[0]] + a[1..] && b == [b[0]] + b[1..];
      LessTotal(a[1..], b[1..]);
    }
  }

  predicate Distinct(s: seq<string>)
  {
    forall i, j :: 0 <= i < j < |s| ==> s[i] != s[j]
  }

  /** Every later element is smaller than every earlier one. */
  predicate StrictlyDescending(s: seq<string>)
  {
    forall i, j :: 0 <= i < j < |s| ==> Less(s[j], s[i])
  }

  /** Inserts a key into a descending sequence before the first element
      smaller than it. */
  function Insert(k: string, s: seq<string>): seq<string>
    decreases |s|
  {
    if |s| == 0 then [k]
    else if Less(s[0], k) then [k] + s
    else [s[0]] + Insert(k, s[1..])
  }

  /** Insertion adds exactly the new key. */
  lemma {:induction false} InsertPermutes(k: string, s: seq<string>)
    ensures multiset(Insert(k, s)) == multiset(s) + multiset{k}
    decreases |s|
  {
    if |s| > 0 && !Less(s[0], k) {
      InsertPermutes(k, s[1..]);
      assert s == [s[0]] + s[1..];
    }
  }

  /** Insertion keeps a strictly descending sequence strictly descending and
      adds exactly the new key. */
  lemma {:induction false} InsertSorted(k: string, s: seq<string>)
    requires StrictlyDescending(s)
    requires k !in s
    ensures StrictlyDescending(Insert(k, s))
    ensures multiset(Insert(k, s)) == multiset(s) + multiset{k}
    decreases |s|
  {
    InsertPermutes(k, s);
    if |s| == 0 {
    } else if Less(s[0], k) {
      forall j | 0 < j < |s| ensures Less(s[j], k) {
        LessTransitive(s[j], s[0], k);
      }
    } else {
      LessTotal(s[0], k);
      InsertSorted(k, s[1..]);
      InsertBelowHead(k, s);
      var tail := Insert(k, s[1..]);
      assert forall j :: 0 <= j < |tail| ==> tail[j] in tail;
    }
  }

  /** Inserting a key below the head of a descending sequence into its tail
      keeps every element below that head. */
  lemma InsertBelowHead(k: string, s: seq<string>)
    requires |s| > 0 && StrictlyDescending(s)
    requires Less(k, s[0])
    ensures forall x :: x in Insert(k, s[1..]) ==> Less(x, s[0])
  {
    InsertMembers(k, s[1..]);
    forall x | x in Insert(k, s[1..]) ensures Less(x, s[0]) {
      if x != k {
        var j :| 0 <= j < |s[1..]| && s[1..][j] == x;
        assert s[j + 1] == x;
      }
    }
  }

  /** Python's `sorted(keys, reverse=True)`, as an insertion sort. */
  function SortDescending(keys: seq<string>): seq<string>
    decreases |keys|
  {
    if |keys| == 0 then []
    else Insert(keys[|keys| - 1], SortDescending(keys[..|keys| - 1]))
  }

  /** Sorting distinct keys gives a strictly descending permutation of them. */
  lemma {:induction false} SortDescendingSorted(keys: seq<string>)
    requires Distinct(keys)
    ensures StrictlyDescending(SortDescending(keys))
    ensures multiset(SortDescending(keys)) == multiset(keys)
    decreases |keys|
  {
    if |keys| > 0 {
      var init, last := keys[..|keys| - 1], keys[|keys| - 1];
      assert keys == init + [last];
      SortDescendingSorted(init);
      assert last !in multiset(init);
      InsertSorted(last, SortDescending(init));
    }
  }

  /** Sorting neither adds nor drops keys. */
  lemma SortedKeysSame(keys: seq<string>, k: string)
    requires Distinct(keys)
    ensures |SortDescending(keys)| == |keys|
    ensures k in SortDescending(keys) <==> k in keys
  {
    SortDescendingSorted(keys);
    var r := SortDescending(keys);
    assert |r| == |multiset(r)| == |multiset(keys)| == |keys|;
    assert k in r <==> k in multiset(r);
    assert k in keys <==> k in multiset(keys);
  }

  /** Every element of the sorted sequence is one of the keys. */
  lemma {:induction false} SortedMembers(keys: seq<string>)
    ensures forall k :: k in SortDescending(keys) ==> k in keys
    decreases |keys|
  {
    if |keys| > 0 {
      var init, last := keys[..|keys| - 1], keys[|keys| - 1];
      SortedMembers(init);
      InsertMembers(last, SortDescending(init));
    }
  }

  lemma {:induction false} InsertMembers(k: string, s: seq<string>)
    ensures forall x :: x in Insert(k, s) ==> x == k || x in s
    decreases |s|
  {
    if |s| > 0 && !Less(s[0], k) {
      InsertMembers(k, s[1..]);
      assert s == [s[0]] + s[1..];
    }
  }

  /** A prefix of a strictly descending sequence holds its greatest elements:
      an element left out of the prefix is smaller than everything kept. */
  lemma OutsidePrefixIsSmaller(s: seq<string>, n: nat, x: string, i: nat)
    requires StrictlyDescending(s)
    requires i < n <= |s|
    requires x in s && x !in s[..n]
    ensures Less(x, s[i])
  {
    var p :| 0 <= p < |s| && s[p] == x;
    assert p >= n;
  }
}
