/**
 * The part of a Redis sorted set that the matchmaking queue relies on.
 * A sorted set is a sequence of (member, score) pairs with unique members,
 * ordered by score and, for equal scores, by the members' lexicographic
 * order (Redis compares members byte by byte; here, code unit by code unit).
 */
module SortedSet {

  /** One member of the sorted set with its score. */
  datatype Entry = Entry(member: string, score: int)

  /** Strict lexicographic order on strings. */
  predicate LexLess(a: string, b: string)
    decreases |a|
  {
    if |a| == 0 then |b| > 0
    else |b| > 0 && (a[0] < b[0] || (a[0] == b[0] && LexLess(a[1..], b[1..])))
  }

  lemma {:induction false} LexLessIrreflexive(a: string)
    ensures !LexLess(a, a)
    decreases |a|
  {
    if |a| > 0 {
      LexLessIrreflexive(a[1..]);
    }
  }

  lemma {:induction false} LexLessAsymmetric(a: string, b: string)
    requires LexLess(a, b)
    ensures !LexLess(b, a)
    decreases |a|
  {
    if |a| > 0 && |b| > 0 && a[0] == b[0] {
      LexLessAsymmetric(a[1..], b[1..]);
    }
  }

  lemma {:induction false} LexLessTransitive(a: string, b: string, c: string)
    requires LexLess(a, b) && LexLess(b, c)
    ensures LexLess(a, c)
    decreases |a|
  {
    if |a| > 0 && a[0] == b[0] && b[0] == c[0] {
      LexLessTransitive(a[1..], b[1..], c[1..]);
    }
  }

  lemma {:induction false} LexLessTotal(a: string, b: string)
    requires a != b
    ensures LexLess(a, b) || LexLess(b, a)
    decreases |a|
  {
    if |a| > 0 && |b| > 0 && a[0] == b[0] {
      assert a == [a[0]] + a[1..] && b == [b[0]] + b[1..];
      LexLessTotal(a[1..], b[1..]);
    }
  }

  /** Redis's order on the entries of a sorted set: by score, then by member. */
  predicate Before(x: Entry, y: Entry) {
    x.score < y.score || (x.score == y.score && LexLess(x.member, y.member))
  }

  lemma BeforeTransitive(x: Entry, y: Entry, z: Entry)
    requires Before(x, y) && Before(y, z)
    ensures Before(x, z)
  {
    if x.score == y.score == z.score {
      LexLessTransitive(x.member, y.member, z.member);
    }
  }

  lemma BeforeTotal(x: Entry, y: Entry)
    requires x.member != y.member
    ensures Before(x, y) || Before(y, x)
  {
    LexLessTotal(x.member, y.member);
  }

  lemma BeforeIrreflexive(x: Entry)
    ensures !Before(x, x)
  {
    LexLessIrreflexive(x.member);
  }

  lemma BeforeAsymmetric(x: Entry, y: Entry)
    requires Before(x, y)
    ensures !Before(y, x)
  {
    if x.score == y.score {
      LexLessAsymmetric(x.member, y.member);
    }
  }

  /** What a sorted set's representation keeps: Redis's order and unique members. */
  predicate IsSortedSet(q: seq<Entry>) {
    && (forall i, j :: 0 <= i < j < |q| ==> Before(q[i], q[j]))
    && (forall i, j :: 0 <= i < j < |q| ==> q[i].member != q[j].member)
  }

  /** The members of a sorted set. */
  function Members(q: seq<Entry>): set<string> {
    set i | 0 <= i < |q| :: q[i].member
  }

  /** ZREM of every member in `ms`: the entries whose member is not in `ms`, in their order. */
  function RemoveAll(q: seq<Entry>, ms: set<string>): (r: seq<Entry>)
    ensures forall e :: e in r <==> e in q && e.member !in ms
    ensures |r| <= |q|
  {
    if q == [] then []
    else if q[0].member in ms then RemoveAll(q[1..], ms)
    else [q[0]] + RemoveAll(q[1..], ms)
  }

  /** Inserting an entry at the place Redis's order gives it. */
  function Insert(q: seq<Entry>, e: Entry): (r: seq<Entry>)
    ensures forall x :: x in r <==> x in q || x == e
    ensures |r| == |q| + 1
  {
    if q == [] then [e]
    else if Before(e, q[0]) then [e] + q
    else [q[0]] + Insert(q[1..], e)
  }

  /** ZADD: the member gets the new score, wherever it was before. */
  function ZAdd(q: seq<Entry>, member: string, score: int): seq<Entry> {
    Insert(RemoveAll(q, {member}), Entry(member, score))
  }

  /** ZRANGE with non-negative inclusive bounds: the members ranked start..stop. */
  function Range(q: seq<Entry>, start: nat, stop: nat): (r: seq<string>)
  {
    if start < |q| && start <= stop then
      var end := if stop < |q| then stop + 1 else |q|;
      seq(end - start, k requires 0 <= k < end - start => q[start + k].member)
    else []
  }

  /** At least two entries of `q` rank before `x`. */
  predicate TwoAhead(q: seq<Entry>, x: Entry) {
    exists a, b :: a in q && b in q && a != b && Before(a, x) && Before(b, x)
  }

  /** In a sorted set, an entry that ranks before another sits at a smaller index. */
  lemma IndexOrder(q: seq<Entry>, i: int, k: int)
    requires IsSortedSet(q) && 0 <= i < |q| && 0 <= k < |q| && Before(q[i], q[k])
    ensures i < k
  {
    if i == k {
      BeforeIrreflexive(q[k]);
    } else if i > k {
      BeforeAsymmetric(q[k], q[i]);
    }
  }

  /** In a sorted set, the entries at ranks 0 and 1 have fewer than two entries ahead, and every later one has two. */
  lemma TwoAheadAt(q: seq<Entry>, k: int)
    requires IsSortedSet(q) && 0 <= k < |q|
    ensures TwoAhead(q, q[k]) <==> k >= 2
  {
    if k >= 2 {
      assert q[0].member != q[1].member;
      assert q[0] in q && q[1] in q && Before(q[0], q[k]) && Before(q[1], q[k]);
    } else if TwoAhead(q, q[k]) {
      var a, b :| a in q && b in q && a != b && Before(a, q[k]) && Before(b, q[k]);
      var i :| 0 <= i < |q| && q[i] == a;
      var j :| 0 <= j < |q| && q[j] == b;
      IndexOrder(q, i, k);
      IndexOrder(q, j, k);
    }
  }

  /**
   * ZRANGE 0 1 on a sorted set returns a member exactly when it is queued
   * and fewer than two entries rank before it.
   */
  lemma RangeTopTwo(q: seq<Entry>, m: string)
    requires IsSortedSet(q)
    ensures m in Range(q, 0, 1) <==> exists x :: x in q && x.member == m && !TwoAhead(q, x)
  {
    var r := Range(q, 0, 1);
    if m in r {
      var k :| 0 <= k < |r| && r[k] == m;
      TwoAheadAt(q, k);
      assert q[k] in q;
    }
    if exists x :: x in q && x.member == m && !TwoAhead(q, x) {
      var x :| x in q && x.member == m && !TwoAhead(q, x);
      var k :| 0 <= k < |q| && q[k] == x;
      TwoAheadAt(q, k);
      assert r[k] == m;
    }
  }

  lemma MembersOf(q: seq<Entry>, m: string)
    ensures m in Members(q) <==> exists e :: e in q && e.member == m
  {
    if m in Members(q) {
      var i :| 0 <= i < |q| && q[i].member == m;
      assert q[i] in q;
    }
  }

  /** The members of a tail are members of the whole. */
  lemma MembersTail(q: seq<Entry>)
    requires q != []
    ensures Members(q) == {q[0].member} + Members(q[1..])
  {
    forall m | m in Members(q[1..]) ensures m in Members(q) {
      var i :| 0 <= i < |q[1..]| && q[1..][i].member == m;
      assert q[i + 1].member == m;
    }
    assert q[0].member in Members(q);
  }

  /** An entry that precedes, and differs in member from, every entry of a sorted set can head it. */
  lemma ConsSorted(x: Entry, rest: seq<Entry>)
    requires IsSortedSet(rest)
    requires forall k :: 0 <= k < |rest| ==> Before(x, rest[k]) && x.member != rest[k].member
    ensures IsSortedSet([x] + rest)
  {
    var r := [x] + rest;
    forall i, j | 0 <= i < j < |r| ensures Before(r[i], r[j]) && r[i].member != r[j].member {
      if i > 0 {
        assert r[i] == rest[i - 1] && r[j] == rest[j - 1];
      }
    }
  }

  /** ZREM keeps the order and the uniqueness of a sorted set. */
  lemma {:induction false} RemoveAllSorted(q: seq<Entry>, ms: set<string>)
    requires IsSortedSet(q)
    ensures IsSortedSet(RemoveAll(q, ms))
  {
    if q != [] {
      assert IsSortedSet(q[1..]);
      RemoveAllSorted(q[1..], ms);
      var rest := RemoveAll(q[1..], ms);
      if q[0].member !in ms {
        forall k | 0 <= k < |rest|
          ensures Before(q[0], rest[k]) && q[0].member != rest[k].member
        {
          assert rest[k] in rest;
          var j :| 0 <= j < |q[1..]| && q[1..][j] == rest[k];
          assert q[j + 1] == rest[k];
        }
        ConsSorted(q[0], rest);
      }
    }
  }

  /** ZREM takes exactly the given members out. */
  lemma RemoveAllMembers(q: seq<Entry>, ms: set<string>)
    ensures Members(RemoveAll(q, ms)) == Members(q) - ms
  {
    var r := RemoveAll(q, ms);
    forall m ensures m in Members(r) <==> m in Members(q) && m !in ms {
      MembersOf(r, m);
      MembersOf(q, m);
    }
  }

  /** Removing `a` and then `b` is the same as removing both at once. */
  lemma {:induction false} RemoveAllTwice(q: seq<Entry>, a: set<string>, b: set<string>)
    ensures RemoveAll(RemoveAll(q, a), b) == RemoveAll(q, a + b)
  {
    if q != [] {
      RemoveAllTwice(q[1..], a, b);
    }
  }

  /** Removing members that are not there changes nothing. */
  lemma {:induction false} RemoveAllAbsent(q: seq<Entry>, ms: set<string>)
    requires Members(q) !! ms
    ensures RemoveAll(q, ms) == q
  {
    if q != [] {
      MembersTail(q);
      RemoveAllAbsent(q[1..], ms);
    }
  }

  /** Inserting a new member keeps Redis's order and uniqueness. */
  lemma {:induction false} InsertSorted(q: seq<Entry>, e: Entry)
    requires IsSortedSet(q) && e.member !in Members(q)
    ensures IsSortedSet(Insert(q, e))
    ensures Members(Insert(q, e)) == Members(q) + {e.member}
  {
    var r := Insert(q, e);
    if q == [] {
    } else if Before(e, q[0]) {
      forall k | 0 <= k < |q|
        ensures Before(e, q[k]) && e.member != q[k].member
      {
        if k > 0 {
          BeforeTransitive(e, q[0], q[k]);
        }
      }
      ConsSorted(e, q);
    } else {
      assert q[0].member != e.member;
      BeforeTotal(e, q[0]);
      MembersTail(q);
      InsertSorted(q[1..], e);
      var rest := Insert(q[1..], e);
      forall k | 0 <= k < |rest|
        ensures Before(q[0], rest[k]) && q[0].member != rest[k].member
      {
        assert rest[k] in rest;
        if rest[k] != e {
          var j :| 0 <= j < |q[1..]| && q[1..][j] == rest[k];
          assert q[j + 1] == rest[k];
        }
      }
      ConsSorted(q[0], rest);
    }
    forall m ensures m in Members(r) <==> m in Members(q) || m == e.member {
      MembersOf(r, m);
      MembersOf(q, m);
      assert e in r;
    }
  }

  /**
   * ZADD keeps a sorted set, and afterwards the member occurs exactly once,
   * with the new score; every other entry is kept.
   */
  lemma ZAddSorted(q: seq<Entry>, member: string, score: int)
    requires IsSortedSet(q)
    ensures IsSortedSet(ZAdd(q, member, score))
    ensures Members(ZAdd(q, member, score)) == Members(q) + {member}
    ensures Entry(member, score) in ZAdd(q, member, score)
    ensures forall e :: e in ZAdd(q, member, score) && e.member == member ==> e.score == score
    ensures forall e :: e in ZAdd(q, member, score) && e.member != member <==> e in q && e.member != member
  {
    RemoveAllSorted(q, {member});
    RemoveAllMembers(q, {member});
    InsertSorted(RemoveAll(q, {member}), Entry(member, score));
  }

  /** In a sorted set, two entries with the same member are the same entry. */
  lemma UniqueEntry(q: seq<Entry>, x: Entry, y: Entry)
    requires IsSortedSet(q) && x in q && y in q && x.member == y.member
    ensures x == y
  {
    var i :| 0 <= i < |q| && q[i] == x;
    var j :| 0 <= j < |q| && q[j] == y;
  }
}
