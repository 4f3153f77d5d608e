/** Byte-wise string order and sorting, as the agent reports its rule ids. */
module StringOrder {

  predicate Less(a: string, b: string) {
    b != [] && (a == [] || a[0] < b[0] || (a[0] == b[0] && Less(a[1..], b[1..])))
  }

  ghost predicate Ascending(ids: seq<string>) {
    forall i, j :: 0 <= i < j < |ids| ==> Less(ids[i], ids[j])
  }

  lemma {:induction false} LessTransitive(a: string, b: string, c: string)
    requires Less(a, b) && Less(b, c)
    ensures Less(a, c)
  {
    if a != [] && a[0] == b[0] == c[0] {
      LessTransitive(a[1..], b[1..], c[1..]);
    }
  }

  lemma {:induction false} LessTotal(a: string, b: string)
    requires a != b
    ensures Less(a, b) || Less(b, a)
  {
    if a != [] && b != [] && a[0] == b[0] {
      assert a == [a[0]] + a[1..] && b == [b[0]] + b[1..];
      LessTotal(a[1..], b[1..]);
    }
  }

  /** Insert into an ascending list. */
  function Insert(ids: seq<string>, x: string): seq<string> {
    if ids == [] || Less(x, ids[0]) then [x] + ids else [ids[0]] + Insert(ids[1..], x)
  }

  function Sorted(ids: seq<string>): seq<string> {
    if ids == [] then [] else Insert(Sorted(ids[1..]), ids[0])
  }

  lemma {:induction false} InsertKeeps(ids: seq<string>, x: string)
    requires Ascending(ids) && x !in ids
    ensures Ascending(Insert(ids, x))
    ensures multiset(Insert(ids, x)) == multiset(ids) + multiset{x}
  {
    hide Less;
    if ids == [] {
    } else if Less(x, ids[0]) {
      forall j | 0 <= j < |ids| ensures Less(x, ids[j]) {
        if j > 0 {
          LessTransitive(x, ids[0], ids[j]);
        }
      }
    } else {
      LessTotal(x, ids[0]);
      var rest := Insert(ids[1..], x);
      assert ids == [ids[0]] + ids[1..];
      InsertKeeps(ids[1..], x);
      forall j | 0 <= j < |rest| ensures Less(ids[0], rest[j]) {
        assert rest[j] in multiset(rest);
        assert rest[j] == x || rest[j] in ids[1..];
      }
    }
  }

  /** Sorting distinct strings puts the same strings in strictly ascending order. */
  lemma {:induction false} SortedCorrect(ids: seq<string>)
    requires forall i, j :: 0 <= i < j < |ids| ==> ids[i] != ids[j]
    ensures Ascending(Sorted(ids)) && multiset(Sorted(ids)) == multiset(ids)
  {
    if ids != [] {
      assert ids == [ids[0]] + ids[1..];
      SortedCorrect(ids[1..]);
      assert ids[0] !in ids[1..];
      assert ids[0] !in multiset(Sorted(ids[1..]));
      InsertKeeps(Sorted(ids[1..]), ids[0]);
    }
  }
}
