// Which replay entries a tenant keeps: the `capacity` greatest by reservation instant, then
// application, then request.
module Eviction {
  // Application and request identifiers are integers ordered by <=.
  datatype Slot = Slot(reservedAt: int, application: int, request: int)

  predicate AtLeast(a: Slot, b: Slot) {
    || a.reservedAt > b.reservedAt
    || (a.reservedAt == b.reservedAt
        && (a.application > b.application || (a.application == b.application && a.request >= b.request)))
  }

  ghost predicate IsGreatest(m: Slot, s: set<Slot>) {
    m in s && forall k :: k in s ==> AtLeast(m, k)
  }

  lemma {:induction false} GreatestExists(s: set<Slot>)
    requires s != {}
    ensures exists m :: IsGreatest(m, s)
  {
    var k :| k in s;
    var rest := s - {k};
    if rest == {} {
      assert s == {k};
      assert IsGreatest(k, s);
    } else {
      GreatestExists(rest);
      var m :| IsGreatest(m, rest);
      assert s == rest + {k};
      assert IsGreatest(if AtLeast(k, m) then k else m, s);
    }
  }

  // The first n of s in descending order.
  function Kept(s: set<Slot>, n: nat): set<Slot>
    decreases n
  {
    if n == 0 || s == {} then {}
    else
      GreatestExists(s);
      var m :| m in s && forall k :: k in s ==> AtLeast(m, k);
      {m} + Kept(s - {m}, n - 1)
  }

  // Everything in a outranks everything in s outside a.
  ghost predicate Outranks(a: set<Slot>, s: set<Slot>) {
    a <= s && forall x, y :: x in a && y in s && y !in a ==> AtLeast(x, y)
  }

  // Exactly the n greatest are kept, and everything kept outranks everything evicted.
  lemma {:induction false} KeepsTheGreatest(s: set<Slot>, n: nat)
    ensures Outranks(Kept(s, n), s) && |Kept(s, n)| == (if |s| <= n then |s| else n)
    decreases n
  {
    if n > 0 && s != {} {
      GreatestExists(s);
      var m :| IsGreatest(m, s);
      KeepsTheGreatest(s - {m}, n - 1);
      assert Kept(s, n) == {m} + Kept(s - {m}, n - 1);
    }
  }

  // Nothing evicted was reserved after anything kept; between equal instants the greater
  // application stays, and then the greater request.
  lemma EvictedAreOlder(s: set<Slot>, n: nat, kept: Slot, evicted: Slot)
    requires kept in Kept(s, n) && evicted in s && evicted !in Kept(s, n)
    ensures evicted.reservedAt <= kept.reservedAt
    ensures evicted.reservedAt == kept.reservedAt ==> evicted.application <= kept.application
    ensures evicted.reservedAt == kept.reservedAt && evicted.application == kept.application ==>
              evicted.request < kept.request
  {
    KeepsTheGreatest(s, n);
    assert kept != evicted && AtLeast(kept, evicted);
  }

  lemma OutrankingMembersCoincide(s: set<Slot>, a: set<Slot>, b: set<Slot>, x: Slot, y: Slot)
    requires Outranks(a, s) && Outranks(b, s) && x in a && x !in b && y in b
    ensures y in a
  {
  }

  // No other choice of as many entries outranks the rest.
  lemma KeptIsTheOnlyChoice(s: set<Slot>, n: nat, other: set<Slot>)
    requires Outranks(other, s) && |other| == |Kept(s, n)|
    ensures other == Kept(s, n)
  {
    KeepsTheGreatest(s, n);
    var kept := Kept(s, n);
    if x :| x in other && x !in kept {
      forall y | y in kept ensures y in other { OutrankingMembersCoincide(s, other, kept, x, y); }
      SameSizeSubset(kept, other);
    } else {
      SameSizeSubset(other, kept);
    }
  }

  lemma SameSizeSubset(a: set<Slot>, b: set<Slot>)
    requires a <= b && |a| == |b|
    ensures a == b
  {
    assert |b - a| == |b| - |a|;
  }
}
