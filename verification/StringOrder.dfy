/** The order in which the coordinator sorts task ids, and sorting itself.
    Ids are restricted to ASCII, so comparing characters is comparing bytes. */
module StringOrder {

  predicate Less(a: string, b: string) {
    if b == [] then false
    else if a == [] then true
    else if a[0] != b[0] then a[0] < b[0]
    else Less(a[1..], b[1..])
  }

  lemma LessIrreflexive(a: string)
    ensures !Less(a, a)
  {
  }

  lemma {:induction false} LessTransitive(a: string, b: string, c: string)
    requires Less(a, b) && Less(b, c)
    ensures Less(a, c)
  {
    if a != [] && b != [] && a[0] == b[0] && c[0] == b[0] {
      LessTransitive(a[1..], b[1..], c[1..]);
    }
  }

  lemma {:induction false} LessTotal(a: string, b: string)
    ensures Less(a, b) || a == b || Less(b, a)
  {
    if a != [] && b != [] && a[0] == b[0] {
      LessTotal(a[1..], b[1..]);
      assert a == [a[0]] + a[1..] && b == [b[0]] + b[1..];
    }
  }

  lemma LessAsymmetric(a: string, b: string)
    requires Less(a, b)
    ensures !Less(b, a)
  {
    if Less(b, a) {
      LessTransitive(a, b, a);
      LessIrreflexive(a);
    }
  }

  ghost predicate Sorted(s: seq<string>) {
    forall i, j :: 0 <= i < j < |s| ==> !Less(s[j], s[i])
  }

  /** Insertion into a sorted list. */
  function Insert(x: string, s: seq<string>): (r: seq<string>)
    ensures multiset(r) == multiset(s) + multiset{x}
  {
    if s == [] || Less(x, s[0]) then
      [x] + s
    else
      assert s == [s[0]] + s[1..];
      [s[0]] + Insert(x, s[1..])
  }

  lemma {:induction false} InsertSorted(x: string, s: seq<string>)
    requires Sorted(s)
    ensures Sorted(Insert(x, s))
  {
    var r := Insert(x, s);
    if s == [] {
    } else if Less(x, s[0]) {
      forall i, j | 0 <= i < j < |r| ensures !Less(r[j], r[i]) {
        assert r[j] == s[j - 1];
        if i == 0 && Less(r[j], x) {
          LessTransitive(r[j], x, s[0]);
          LessIrreflexive(s[0]);
        }
      }
    } else {
      var t := Insert(x, s[1..]);
      InsertSorted(x, s[1..]);
      forall i, j | 0 <= i < j < |r| ensures !Less(r[j], r[i]) {
        assert r[j] == t[j - 1];
        if i == 0 {
          assert t[j - 1] in multiset(t);
          assert t[j - 1] in multiset(s[1..]) + multiset{x};
          if t[j - 1] != x {
            assert t[j - 1] in s[1..];
          }
        } else {
          assert r[i] == t[i - 1];
        }
      }
    }
  }

  /** `sort.Strings` as a value: the sorted rearrangement of `s`. */
  function Sort(s: seq<string>): (r: seq<string>)
    ensures Sorted(r)
    ensures multiset(r) == multiset(s)
    ensures |r| == |s|
  {
    if s == [] then []
    else
      var t := Sort(s[1..]);
      assert s == [s[0]] + s[1..];
      InsertSorted(s[0], t);
      var r := Insert(s[0], t);
      assert multiset(r) == multiset(s);
      assert |r| == |multiset(r)| && |s| == |multiset(s)|;
      r
  }
}
