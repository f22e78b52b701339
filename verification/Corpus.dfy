// A constructed dataset example and the (started_at, interaction_id) order that
// curation and splitting both sort by. Instants and interaction ids are integers
// ordered by <=.
module Corpus {
  import opened Basics

  datatype Example = Example(
    tenant: string,
    id: int,
    subject: Option<string>,
    families: seq<string>,
    startedAt: int,
    exactHash: string,
    text: string,
    benchmarkText: Option<string>)

  predicate Before(a: Example, b: Example) {
    a.startedAt < b.startedAt || (a.startedAt == b.startedAt && a.id <= b.id)
  }

  predicate Sorted(s: seq<Example>) {
    forall i, j :: 0 <= i < j < |s| ==> Before(s[i], s[j])
  }

  function Insert(e: Example, s: seq<Example>): (r: seq<Example>)
    ensures multiset(r) == multiset(s) + multiset{e}
    ensures |r| == |s| + 1
  {
    if s == [] then [e]
    else if Before(e, s[0]) then [e] + s
    else
      assert s == [s[0]] + s[1..];
      [s[0]] + Insert(e, s[1..])
  }

  lemma {:induction false} InsertKeepsSorted(e: Example, s: seq<Example>)
    requires Sorted(s)
    ensures Sorted(Insert(e, s))
  {
    if s != [] && !Before(e, s[0]) {
      InsertKeepsSorted(e, s[1..]);
      var rest := Insert(e, s[1..]);
      forall j | 0 <= j < |rest| ensures Before(s[0], rest[j]) {
        assert rest[j] in multiset(s[1..]) + multiset{e};
      }
    }
  }

  // Python's stable sort by (started_at, interaction_id).
  function SortByStart(s: seq<Example>): (r: seq<Example>)
    ensures Sorted(r)
    ensures forall i, j :: 0 <= i < j < |r| ==>
              r[i].startedAt < r[j].startedAt || (r[i].startedAt == r[j].startedAt && r[i].id <= r[j].id)
    ensures multiset(r) == multiset(s)
    ensures |r| == |s|
  {
    if s == [] then []
    else
      assert s == [s[0]] + s[1..];
      InsertKeepsSorted(s[0], SortByStart(s[1..]));
      Insert(s[0], SortByStart(s[1..]))
  }

  lemma {:induction false} SortingSortedIsIdentity(s: seq<Example>)
    requires Sorted(s)
    ensures SortByStart(s) == s
  {
    if s != [] {
      SortingSortedIsIdentity(s[1..]);
      assert s == [s[0]] + s[1..];
    }
  }
}
