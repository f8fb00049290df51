/**
 * `SortByName`: `people.OrderBy(p => p.LastName).ThenBy(p => p.FirstName)`,
 * a stable sort on the key (LastName, FirstName).
 */
module People {

  /** A person as the hub sees it; `details` stands for the remaining serialized fields. */
  datatype Person<A> = Person(firstName: string, lastName: string, details: A)

  /** Ordinal, character-by-character lexicographic order on strings. */
  predicate StrLess(a: string, b: string)
    decreases |a|
  {
    if |a| == 0 then |b| > 0
    else if |b| == 0 then false
    else a[0] < b[0] || (a[0] == b[0] && StrLess(a[1..], b[1..]))
  }

  lemma {:induction false} StrLessIrreflexive(a: string)
    ensures !StrLess(a, a)
    decreases |a|
  {
    if |a| > 0 {
      StrLessIrreflexive(a[1..]);
    }
  }

  lemma {:induction false} StrLessTransitive(a: string, b: string, c: string)
    requires StrLess(a, b) && StrLess(b, c)
    ensures StrLess(a, c)
    decreases |a|
  {
    if |a| > 0 && a[0] == b[0] && b[0] == c[0] {
      StrLessTransitive(a[1..], b[1..], c[1..]);
    }
  }

  lemma {:induction false} StrLessTotal(a: string, b: string)
    ensures StrLess(a, b) || a == b || StrLess(b, a)
    decreases |a|
  {
    if |a| > 0 && |b| > 0 && a[0] == b[0] {
      StrLessTotal(a[1..], b[1..]);
      if a[1..] == b[1..] {
        assert a == [a[0]] + a[1..] && b == [b[0]] + b[1..];
      }
    }
  }

  /** The sort key, compared last name first, then first name. */
  function Key<A>(p: Person<A>): (string, string)
  {
    (p.lastName, p.firstName)
  }

  predicate KeyLess<A>(p: Person<A>, q: Person<A>)
  {
    StrLess(p.lastName, q.lastName) || (p.lastName == q.lastName && StrLess(p.firstName, q.firstName))
  }

  /** `p` may stand before `q` in the output. */
  predicate KeyLe<A>(p: Person<A>, q: Person<A>)
  {
    !KeyLess(q, p)
  }

  /** Strictly smaller keys are different keys, and exactly one side of a pair is strictly smaller unless the keys agree. */
  lemma KeyLessFacts<A>(p: Person<A>, q: Person<A>)
    ensures KeyLess(p, q) ==> Key(p) != Key(q) && !KeyLess(q, p)
    ensures KeyLess(p, q) || Key(p) == Key(q) || KeyLess(q, p)
  {
    StrLessIrreflexive(p.lastName);
    StrLessIrreflexive(p.firstName);
    StrLessTotal(p.lastName, q.lastName);
    StrLessTotal(p.firstName, q.firstName);
    if StrLess(p.lastName, q.lastName) && StrLess(q.lastName, p.lastName) {
      StrLessTransitive(p.lastName, q.lastName, p.lastName);
    }
    if StrLess(p.firstName, q.firstName) && StrLess(q.firstName, p.firstName) {
      StrLessTransitive(p.firstName, q.firstName, p.firstName);
    }
  }

  lemma KeyLeTransitive<A>(p: Person<A>, q: Person<A>, r: Person<A>)
    requires KeyLe(p, q) && KeyLe(q, r)
    ensures KeyLe(p, r)
  {
    KeyLessFacts(p, q);
    KeyLessFacts(q, r);
    if KeyLess(r, p) {
      if StrLess(r.lastName, p.lastName) && StrLess(p.lastName, q.lastName) {
        StrLessTransitive(r.lastName, p.lastName, q.lastName);
      }
      if StrLess(q.lastName, r.lastName) && StrLess(r.lastName, p.lastName) {
        StrLessTransitive(q.lastName, r.lastName, p.lastName);
      }
      if StrLess(r.firstName, p.firstName) && StrLess(p.firstName, q.firstName) {
        StrLessTransitive(r.firstName, p.firstName, q.firstName);
      }
      if StrLess(q.firstName, r.firstName) && StrLess(r.firstName, p.firstName) {
        StrLessTransitive(q.firstName, r.firstName, p.firstName);
      }
      KeyLessFacts(r, p);
    }
  }

  /** Non-decreasing by key. */
  predicate Ordered<A>(s: seq<Person<A>>)
  {
    forall i, j :: 0 <= i < j < |s| ==> KeyLe(s[i], s[j])
  }

  /** The subsequence of the people whose key is `k`, in their order. */
  function WithKey<A>(s: seq<Person<A>>, k: (string, string)): seq<Person<A>>
  {
    if s == [] then []
    else (if Key(s[0]) == k then [s[0]] else []) + WithKey(s[1..], k)
  }

  /** Places `p` before the first person whose key is not smaller than its own. */
  function Insert<A>(p: Person<A>, s: seq<Person<A>>): (r: seq<Person<A>>)
  {
    if s == [] then [p]
    else if KeyLess(s[0], p) then [s[0]] + Insert(p, s[1..])
    else [p] + s
  }

  /**
   * The result of `SortByName`, stable insertion from the back: ordered by
   * (LastName, FirstName) and a permutation of its input.
   */
  function SortByName<A>(people: seq<Person<A>>): (r: seq<Person<A>>)
    ensures Ordered(r)
    ensures multiset(r) == multiset(people)
  {
    if people == [] then []
    else
      var rest := SortByName(people[1..]);
      InsertOrdered(people[0], rest);
      InsertPermutes(people[0], rest);
      assert people == [people[0]] + people[1..];
      Insert(people[0], rest)
  }

  lemma {:induction false} InsertPermutes<A>(p: Person<A>, s: seq<Person<A>>)
    ensures multiset(Insert(p, s)) == multiset(s) + multiset{p}
  {
    if s != [] && KeyLess(s[0], p) {
      InsertPermutes(p, s[1..]);
      assert s == [s[0]] + s[1..];
    }
  }

  lemma {:induction false} InsertOrdered<A>(p: Person<A>, s: seq<Person<A>>)
    requires Ordered(s)
    ensures Ordered(Insert(p, s))
  {
    if s == [] {
    } else if KeyLess(s[0], p) {
      var t := Insert(p, s[1..]);
      InsertOrdered(p, s[1..]);
      InsertPermutes(p, s[1..]);
      forall j | 0 <= j < |t| ensures KeyLe(s[0], t[j]) {
        assert t[j] in multiset(t);
        if t[j] == p {
          KeyLessFacts(s[0], p);
        } else {
          assert t[j] in multiset(s[1..]);
          var i :| 0 <= i < |s[1..]| && s[1..][i] == t[j];
          assert s[i + 1] == t[j];
        }
      }
    } else {
      KeyLessFacts(s[0], p);
      forall j | 0 <= j < |s| ensures KeyLe(p, s[j]) {
        if j > 0 {
          KeyLeTransitive(p, s[0], s[j]);
        }
      }
    }
  }

  /** Inserting `p` does not move it past anyone with its own key, nor disturb the others. */
  lemma {:induction false} InsertStable<A>(p: Person<A>, s: seq<Person<A>>, k: (string, string))
    ensures WithKey(Insert(p, s), k) == (if Key(p) == k then [p] else []) + WithKey(s, k)
  {
    if s == [] {
      assert WithKey([p], k) == (if Key(p) == k then [p] else []) + WithKey([], k);
    } else if KeyLess(s[0], p) {
      InsertStable(p, s[1..], k);
      KeyLessFacts(s[0], p);
      var r := Insert(p, s);
      assert r[0] == s[0] && r[1..] == Insert(p, s[1..]);
      if Key(p) == k {
        assert Key(s[0]) != k;
      }
    } else {
      var r := [p] + s;
      assert r[1..] == s;
    }
  }

  /** `SortByName` is stable: people with equal keys keep their input order. */
  lemma {:induction false} SortByNameStable<A>(people: seq<Person<A>>, k: (string, string))
    ensures WithKey(SortByName(people), k) == WithKey(people, k)
  {
    if people != [] {
      SortByNameStable(people[1..], k);
      InsertStable(people[0], SortByName(people[1..]), k);
    }
  }

  lemma {:induction false} WithKeyMember<A>(s: seq<Person<A>>, k: (string, string))
    requires WithKey(s, k) != []
    ensures exists j :: 0 <= j < |s| && Key(s[j]) == k
  {
    if Key(s[0]) != k {
      WithKeyMember(s[1..], k);
      var j :| 0 <= j < |s[1..]| && Key(s[1..][j]) == k;
      assert Key(s[j + 1]) == k;
    }
  }

  /** A non-empty sequence has at least its first person under that person's key. */
  lemma NonEmptyHasKey<A>(s: seq<Person<A>>)
    ensures s != [] ==> WithKey(s, Key(s[0])) != []
  {
  }

  /**
   * Being ordered by key and keeping the input order within each key pins the
   * output down: two such arrangements of the same people are identical.
   */
  lemma {:induction false} OrderedStableUnique<A>(a: seq<Person<A>>, b: seq<Person<A>>)
    requires Ordered(a) && Ordered(b)
    requires forall k :: WithKey(a, k) == WithKey(b, k)
    ensures a == b
    decreases |a| + |b|
  {
    NonEmptyHasKey(a);
    NonEmptyHasKey(b);
    if a == [] || b == [] {
    } else {
      var k0 := Key(a[0]);
      assert Key(b[0]) == k0 by {
        KeyLessFacts(a[0], b[0]);
        if KeyLess(a[0], b[0]) {
          assert WithKey(b, k0) == WithKey(a, k0);
          WithKeyMember(b, k0);
          assert false;
        } else if KeyLess(b[0], a[0]) {
          assert WithKey(a, Key(b[0])) == WithKey(b, Key(b[0]));
          WithKeyMember(a, Key(b[0]));
          assert false;
        }
      }
      assert a[0] == b[0] by {
        assert WithKey(a, k0) == [a[0]] + WithKey(a[1..], k0);
        assert WithKey(b, k0) == [b[0]] + WithKey(b[1..], k0);
        assert WithKey(a, k0)[0] == WithKey(b, k0)[0];
      }
      forall k ensures WithKey(a[1..], k) == WithKey(b[1..], k) {
        var head: seq<Person<A>> := if k0 == k then [a[0]] else [];
        assert WithKey(a, k) == head + WithKey(a[1..], k);
        assert WithKey(b, k) == head + WithKey(b[1..], k);
        assert WithKey(a[1..], k) == WithKey(a, k)[|head|..];
        assert WithKey(b[1..], k) == WithKey(b, k)[|head|..];
      }
      assert Ordered(a[1..]) && Ordered(b[1..]) by {
        forall i, j | 0 <= i < j < |a| - 1 ensures KeyLe(a[1..][i], a[1..][j]) {
          assert a[1..][i] == a[i + 1] && a[1..][j] == a[j + 1];
        }
        forall i, j | 0 <= i < j < |b| - 1 ensures KeyLe(b[1..][i], b[1..][j]) {
          assert b[1..][i] == b[i + 1] && b[1..][j] == b[j + 1];
        }
      }
      OrderedStableUnique(a[1..], b[1..]);
      assert a == [a[0]] + a[1..] && b == [b[0]] + b[1..];
    }
  }

  /**
   * `SortByName` is THE stable sort by (LastName, FirstName): any ordering of
   * the people that is ordered by key and stable equals it.
   */
  lemma SortByNameIsOrderByThenBy<A>(people: seq<Person<A>>, r: seq<Person<A>>)
    requires Ordered(r)
    requires forall k :: WithKey(r, k) == WithKey(people, k)
    ensures r == SortByName(people)
  {
    forall k ensures WithKey(r, k) == WithKey(SortByName(people), k) {
      SortByNameStable(people, k);
    }
    OrderedStableUnique(r, SortByName(people));
  }
}
