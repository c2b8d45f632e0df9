/** The comparator of the page's query (app/page.tsx:64-75) and the stable
    `Array.prototype.sort` it is handed to (stability is required since
    ECMAScript 2019). The sort is stated once for any consistent comparator
    and then instantiated with the page's. */
module Sorting {
  import opened Types
  import opened Strings

  /** What a stable sort may rely on: the comparator is antisymmetric,
      transitive on "not after", and answers 0 exactly on equal keys. */
  ghost predicate ConsistentComparator<T(!new), K(!new)>(cmp: (T, T) -> int, key: T -> K) {
    && (forall a, b :: cmp(a, b) == -cmp(b, a))
    && (forall a, b, c :: cmp(a, b) <= 0 && cmp(b, c) <= 0 ==> cmp(a, c) <= 0)
    && (forall a, b :: cmp(a, b) == 0 <==> key(a) == key(b))
  }

  /** No later element is put before an earlier one by the comparator. */
  ghost predicate SortedBy<T>(s: seq<T>, cmp: (T, T) -> int) {
    forall i, j :: 0 <= i < j < |s| ==> cmp(s[i], s[j]) <= 0
  }

  /** The subsequence of the elements whose key is `k`. */
  function Keyed<T, K(==)>(s: seq<T>, k: K, key: T -> K): seq<T> {
    if s == [] then []
    else if key(s[0]) == k then [s[0]] + Keyed(s[1..], k, key)
    else Keyed(s[1..], k, key)
  }

  /** Place `x` before the first element the comparator does not put
      strictly before it; `x` comes first in the input, so it stays ahead of
      every element with an equal key. */
  function InsertBy<T>(x: T, s: seq<T>, cmp: (T, T) -> int): seq<T> {
    if s == [] then [x]
    else if cmp(s[0], x) < 0 then [s[0]] + InsertBy(x, s[1..], cmp)
    else [x] + s
  }

  /** A stable sort, as insertion from the back. */
  function SortBy<T>(s: seq<T>, cmp: (T, T) -> int): seq<T> {
    if s == [] then [] else InsertBy(s[0], SortBy(s[1..], cmp), cmp)
  }

  lemma {:induction false} KeyedMember<T, K>(s: seq<T>, k: K, key: T -> K, x: T)
    ensures x in Keyed(s, k, key) <==> x in s && key(x) == k
  {
    if s != [] {
      KeyedMember(s[1..], k, key, x);
      assert s == [s[0]] + s[1..];
    }
  }

  lemma KeyedCons<T, K>(x: T, s: seq<T>, k: K, key: T -> K)
    ensures Keyed([x] + s, k, key) == (if key(x) == k then [x] else []) + Keyed(s, k, key)
  {
    assert ([x] + s)[0] == x && ([x] + s)[1..] == s;
  }

  lemma SortedTail<T>(s: seq<T>, cmp: (T, T) -> int)
    requires s != [] && SortedBy(s, cmp)
    ensures SortedBy(s[1..], cmp)
  {
    forall p, q | 0 <= p < q < |s[1..]|
      ensures cmp(s[1..][p], s[1..][q]) <= 0
    {
      assert s[1..][p] == s[p + 1] && s[1..][q] == s[q + 1];
    }
  }

  lemma {:induction false} InsertByPermutation<T>(x: T, s: seq<T>, cmp: (T, T) -> int)
    ensures multiset(InsertBy(x, s, cmp)) == multiset(s) + multiset{x}
  {
    if s != [] && cmp(s[0], x) < 0 {
      InsertByPermutation(x, s[1..], cmp);
      assert s == [s[0]] + s[1..];
    }
  }

  lemma {:induction false} SortByPermutation<T>(s: seq<T>, cmp: (T, T) -> int)
    ensures multiset(SortBy(s, cmp)) == multiset(s)
  {
    if s != [] {
      SortByPermutation(s[1..], cmp);
      InsertByPermutation(s[0], SortBy(s[1..], cmp), cmp);
      assert s == [s[0]] + s[1..];
    }
  }

  /** `x` put first is in order with the rest when the head of the rest is
      not strictly before it. */
  lemma ConsSorted<T(!new), K(!new)>(x: T, s: seq<T>, cmp: (T, T) -> int, key: T -> K)
    requires ConsistentComparator(cmp, key)
    requires SortedBy(s, cmp)
    requires s != [] ==> cmp(x, s[0]) <= 0
    ensures SortedBy([x] + s, cmp)
  {
    forall i, j | 0 <= i < j < |[x] + s|
      ensures cmp(([x] + s)[i], ([x] + s)[j]) <= 0
    {
      if i == 0 {
        assert ([x] + s)[j] == s[j - 1];
        if j > 1 {
          assert cmp(s[0], s[j - 1]) <= 0;
        }
      } else {
        assert ([x] + s)[i] == s[i - 1] && ([x] + s)[j] == s[j - 1];
      }
    }
  }

  lemma {:induction false} InsertBySorted<T(!new), K(!new)>(x: T, s: seq<T>, cmp: (T, T) -> int, key: T -> K)
    requires ConsistentComparator(cmp, key)
    requires SortedBy(s, cmp)
    ensures SortedBy(InsertBy(x, s, cmp), cmp)
  {
    if s == [] {
    } else if cmp(s[0], x) < 0 {
      SortedTail(s, cmp);
      InsertBySorted(x, s[1..], cmp, key);
      var r := InsertBy(x, s[1..], cmp);
      if s[1..] == [] {
        assert r == [x];
      } else if cmp(s[1..][0], x) < 0 {
        assert r[0] == s[1];
      } else {
        assert r[0] == x;
      }
      ConsSorted(s[0], r, cmp, key);
    } else {
      ConsSorted(x, s, cmp, key);
    }
  }

  lemma {:induction false} SortBySorted<T(!new), K(!new)>(s: seq<T>, cmp: (T, T) -> int, key: T -> K)
    requires ConsistentComparator(cmp, key)
    ensures SortedBy(SortBy(s, cmp), cmp)
  {
    if s != [] {
      SortBySorted(s[1..], cmp, key);
      InsertBySorted(s[0], SortBy(s[1..], cmp), cmp, key);
    }
  }

  lemma {:induction false} InsertByKeyed<T(!new), K(!new)>(x: T, s: seq<T>, k: K, cmp: (T, T) -> int, key: T -> K)
    requires ConsistentComparator(cmp, key)
    ensures Keyed(InsertBy(x, s, cmp), k, key) == (if key(x) == k then [x] else []) + Keyed(s, k, key)
  {
    if s == [] {
      KeyedCons(x, [], k, key);
    } else if cmp(s[0], x) < 0 {
      InsertByKeyed(x, s[1..], k, cmp, key);
      KeyedCons(s[0], InsertBy(x, s[1..], cmp), k, key);
    } else {
      KeyedCons(x, s, k, key);
    }
  }

  lemma {:induction false} SortByStable<T(!new), K(!new)>(s: seq<T>, k: K, cmp: (T, T) -> int, key: T -> K)
    requires ConsistentComparator(cmp, key)
    ensures Keyed(SortBy(s, cmp), k, key) == Keyed(s, k, key)
  {
    if s != [] {
      SortByStable(s[1..], k, cmp, key);
      InsertByKeyed(s[0], SortBy(s[1..], cmp), k, cmp, key);
    }
  }

  /** With equal keyed subsequences, both sequences hold the same elements. */
  lemma KeyedSameMembers<T, K>(a: seq<T>, b: seq<T>, key: T -> K, x: T)
    requires forall k :: Keyed(a, k, key) == Keyed(b, k, key)
    requires x in b
    ensures x in a
  {
    KeyedMember(b, key(x), key, x);
    assert Keyed(a, key(x), key) == Keyed(b, key(x), key);
    KeyedMember(a, key(x), key, x);
  }

  /** The head of a sorted sequence is not after any of its elements. */
  lemma HeadNotAfter<T(!new), K(!new)>(a: seq<T>, cmp: (T, T) -> int, key: T -> K, x: T)
    requires ConsistentComparator(cmp, key)
    requires SortedBy(a, cmp)
    requires x in a
    ensures cmp(a[0], x) <= 0
  {
    var i :| 0 <= i < |a| && a[i] == x;
    if i > 0 {
      assert cmp(a[0], a[i]) <= 0;
    }
  }

  /** Two sorted sequences with the same members start with equal keys. */
  lemma SortedHeadsSameKey<T(!new), K(!new)>(a: seq<T>, b: seq<T>, cmp: (T, T) -> int, key: T -> K)
    requires ConsistentComparator(cmp, key)
    requires SortedBy(a, cmp) && SortedBy(b, cmp)
    requires a != [] && b != [] && a[0] in b && b[0] in a
    ensures key(a[0]) == key(b[0])
  {
    HeadNotAfter(a, cmp, key, b[0]);
    HeadNotAfter(b, cmp, key, a[0]);
    assert cmp(a[0], b[0]) == 0;
  }

  /** The subsequence under the head's key starts with the head. */
  lemma KeyedHead<T, K>(a: seq<T>, key: T -> K)
    requires a != []
    ensures Keyed(a, key(a[0]), key) != [] && Keyed(a, key(a[0]), key)[0] == a[0]
  {
  }

  /** Two sorted sequences with the same keyed subsequences start alike. */
  lemma SortedKeyedHeads<T(!new), K(!new)>(a: seq<T>, b: seq<T>, cmp: (T, T) -> int, key: T -> K)
    requires ConsistentComparator(cmp, key)
    requires SortedBy(a, cmp) && SortedBy(b, cmp)
    requires a != [] && b != []
    requires forall k :: Keyed(a, k, key) == Keyed(b, k, key)
    ensures a[0] == b[0]
  {
    KeyedSameMembers(a, b, key, b[0]);
    KeyedSameMembers(b, a, key, a[0]);
    SortedHeadsSameKey(a, b, cmp, key);
    KeyedHead(a, key);
    KeyedHead(b, key);
    assert Keyed(a, key(a[0]), key) == Keyed(b, key(b[0]), key);
  }

  lemma KeyedTails<T, K>(a: seq<T>, b: seq<T>, key: T -> K)
    requires a != [] && b != [] && a[0] == b[0]
    requires forall k :: Keyed(a, k, key) == Keyed(b, k, key)
    ensures forall k :: Keyed(a[1..], k, key) == Keyed(b[1..], k, key)
  {
    forall k
      ensures Keyed(a[1..], k, key) == Keyed(b[1..], k, key)
    {
      var x, y := Keyed(a[1..], k, key), Keyed(b[1..], k, key);
      assert Keyed(a, k, key) == Keyed(b, k, key);
      if key(a[0]) == k {
        assert x == ([a[0]] + x)[1..] && y == ([a[0]] + y)[1..];
      }
    }
  }

  lemma KeyedNonEmpty<T, K>(a: seq<T>, key: T -> K)
    requires a != []
    ensures Keyed(a, key(a[0]), key) != []
  {
  }

  lemma {:induction false} SortedKeyedUnique<T(!new), K(!new)>(a: seq<T>, b: seq<T>, cmp: (T, T) -> int, key: T -> K)
    requires ConsistentComparator(cmp, key)
    requires SortedBy(a, cmp) && SortedBy(b, cmp)
    requires forall k :: Keyed(a, k, key) == Keyed(b, k, key)
    ensures a == b
    decreases |a|
  {
    if a == [] || b == [] {
      if a != [] {
        KeyedNonEmpty(a, key);
      } else if b != [] {
        KeyedNonEmpty(b, key);
      }
    } else {
      SortedKeyedHeads(a, b, cmp, key);
      KeyedTails(a, b, key);
      SortedTail(a, cmp);
      SortedTail(b, cmp);
      SortedKeyedUnique(a[1..], b[1..], cmp, key);
      assert a == [a[0]] + a[1..] && b == [b[0]] + b[1..];
    }
  }

  /** Sorted and stable determine the result of a sort. */
  lemma SortByUnique<T(!new), K(!new)>(s: seq<T>, r: seq<T>, cmp: (T, T) -> int, key: T -> K)
    requires ConsistentComparator(cmp, key)
    requires SortedBy(r, cmp)
    requires forall k :: Keyed(r, k, key) == Keyed(s, k, key)
    ensures r == SortBy(s, cmp)
  {
    SortBySorted(s, cmp, key);
    forall k
      ensures Keyed(r, k, key) == Keyed(SortBy(s, cmp), k, key)
    {
      SortByStable(s, k, cmp, key);
    }
    SortedKeyedUnique(r, SortBy(s, cmp), cmp, key);
  }

  // ---- The page's comparator ----

  /** `a[sortField]`: every sortable property holds a string at run time. */
  function FieldValue(t: Task, f: SortField): string {
    match f
    case ByCustomerName => t.customerName
    case ByTaskId => t.taskId
    case ByTitle => t.title
    case ByStatus => StatusName(t.status)
    case ByPriority => PriorityName(t.priority)
    case ByDueDate => t.dueDate
  }

  /** Both values are strings, so the comparator always lower-cases them. */
  function SortKey(t: Task, f: SortField): string {
    Lower(FieldValue(t, f))
  }

  /** The comparator: -1, 1 or 0, with the signs swapped for `desc`. */
  function Compare(a: Task, b: Task, f: SortField, o: SortOrder): (r: int)
    ensures r == -1 || r == 0 || r == 1
  {
    var x, y := SortKey(a, f), SortKey(b, f);
    if Less(x, y) then (if o == Asc then -1 else 1)
    else if Less(y, x) then (if o == Asc then 1 else -1)
    else 0
  }

  function TaskComparator(f: SortField, o: SortOrder): (Task, Task) -> int {
    (a, b) => Compare(a, b, f, o)
  }

  function TaskKey(f: SortField): Task -> string {
    t => SortKey(t, f)
  }

  /** `x` may precede `y` in the requested direction. */
  predicate KeyInOrder(x: string, y: string, o: SortOrder) {
    if o == Asc then !Less(y, x) else !Less(x, y)
  }

  /** `asc` orders keys non-decreasingly and `desc` non-increasingly. */
  lemma CompareMeaning(a: Task, b: Task, f: SortField, o: SortOrder)
    ensures Compare(a, b, f, o) <= 0 <==> KeyInOrder(SortKey(a, f), SortKey(b, f), o)
  {
    LessAsymmetric(SortKey(a, f), SortKey(b, f));
  }

  /** The comparator returns 0 exactly on equal keys, whatever the order. */
  lemma CompareZeroIff(a: Task, b: Task, f: SortField, o: SortOrder)
    ensures Compare(a, b, f, o) == 0 <==> SortKey(a, f) == SortKey(b, f)
  {
    LessTotal(SortKey(a, f), SortKey(b, f));
    LessIrreflexive(SortKey(a, f));
  }

  lemma CompareTransitive(a: Task, b: Task, c: Task, f: SortField, o: SortOrder)
    requires Compare(a, b, f, o) <= 0 && Compare(b, c, f, o) <= 0
    ensures Compare(a, c, f, o) <= 0
  {
    var x, y, z := SortKey(a, f), SortKey(b, f), SortKey(c, f);
    CompareMeaning(a, b, f, o);
    CompareMeaning(b, c, f, o);
    CompareMeaning(a, c, f, o);
    LessTotal(x, y);
    LessTotal(y, z);
    if o == Asc {
      LessTransitive(z, x, y);
    } else {
      LessTransitive(x, z, y);
    }
  }

  /** The page's comparator is one a stable sort can rely on. */
  lemma TaskComparatorConsistent(f: SortField, o: SortOrder)
    ensures ConsistentComparator(TaskComparator(f, o), TaskKey(f))
  {
    forall a, b
      ensures Compare(a, b, f, o) == -Compare(b, a, f, o)
      ensures Compare(a, b, f, o) == 0 <==> SortKey(a, f) == SortKey(b, f)
    {
      LessAsymmetric(SortKey(a, f), SortKey(b, f));
      CompareZeroIff(a, b, f, o);
    }
    forall a, b, c | Compare(a, b, f, o) <= 0 && Compare(b, c, f, o) <= 0
      ensures Compare(a, c, f, o) <= 0
    {
      CompareTransitive(a, b, c, f, o);
    }
  }

  /** `filtered.sort(comparator)`. */
  function StableSort(s: seq<Task>, f: SortField, o: SortOrder): seq<Task> {
    SortBy(s, TaskComparator(f, o))
  }

  ghost predicate Sorted(s: seq<Task>, f: SortField, o: SortOrder) {
    SortedBy(s, TaskComparator(f, o))
  }

  function WithKey(s: seq<Task>, k: string, f: SortField): seq<Task> {
    Keyed(s, k, TaskKey(f))
  }

  /** The sort result is a rearrangement of its input, ordered by the
      comparator: keys non-decreasing for `asc`, non-increasing for `desc`. */
  lemma StableSortSortedPermutation(s: seq<Task>, f: SortField, o: SortOrder)
    ensures multiset(StableSort(s, f, o)) == multiset(s)
    ensures |StableSort(s, f, o)| == |s|
    ensures Sorted(StableSort(s, f, o), f, o)
    ensures forall i, j :: 0 <= i < j < |StableSort(s, f, o)| ==>
              KeyInOrder(SortKey(StableSort(s, f, o)[i], f), SortKey(StableSort(s, f, o)[j], f), o)
  {
    var r := StableSort(s, f, o);
    SortByPermutation(s, TaskComparator(f, o));
    assert |multiset(r)| == |r| && |multiset(s)| == |s|;
    TaskComparatorConsistent(f, o);
    SortBySorted(s, TaskComparator(f, o), TaskKey(f));
    forall i, j | 0 <= i < j < |r|
      ensures KeyInOrder(SortKey(r[i], f), SortKey(r[j], f), o)
    {
      CompareMeaning(r[i], r[j], f, o);
    }
  }

  /** Stability: for every key, the tasks with that key come out in the order
      they went in, in both directions. */
  lemma StableSortStable(s: seq<Task>, f: SortField, o: SortOrder, k: string)
    ensures WithKey(StableSort(s, f, o), k, f) == WithKey(s, k, f)
  {
    TaskComparatorConsistent(f, o);
    SortByStable(s, k, TaskComparator(f, o), TaskKey(f));
  }

  /** Sorted and stable pin the result down: whatever stable sort the
      engine uses, it returns exactly StableSort. */
  lemma StableSortUnique(s: seq<Task>, r: seq<Task>, f: SortField, o: SortOrder)
    requires Sorted(r, f, o)
    requires forall k :: WithKey(r, k, f) == WithKey(s, k, f)
    ensures r == StableSort(s, f, o)
  {
    TaskComparatorConsistent(f, o);
    forall k
      ensures Keyed(r, k, TaskKey(f)) == Keyed(s, k, TaskKey(f))
    {
      assert WithKey(r, k, f) == WithKey(s, k, f);
    }
    SortByUnique(s, r, TaskComparator(f, o), TaskKey(f));
  }

  /** Position of a priority in the alphabetical order of its lower-cased name. */
  function PriorityAlphaRank(p: Priority): nat {
    match p
    case Critical => 0
    case High => 1
    case Low => 2
    case Medium => 3
  }

  /** Position of a status in the alphabetical order of its lower-cased name. */
  function StatusAlphaRank(s: Status): nat {
    match s
    case Cancelled => 0
    case Completed => 1
    case InProgress => 2
    case Overdue => 3
    case Pending => 4
  }

  lemma PriorityKeys(p: Priority)
    ensures Lower(PriorityName(p)) ==
      match p
      case Critical => "critical"
      case High => "high"
      case Low => "low"
      case Medium => "medium"
  {
    match p
    case Critical => LowerPointwise("Critical", "critical");
    case High => LowerPointwise("High", "high");
    case Low => LowerPointwise("Low", "low");
    case Medium => LowerPointwise("Medium", "medium");
  }

  lemma StatusKeys(s: Status)
    ensures Lower(StatusName(s)) ==
      match s
      case Cancelled => "cancelled"
      case Completed => "completed"
      case InProgress => "in progress"
      case Overdue => "overdue"
      case Pending => "pending"
  {
    match s
    case Cancelled => LowerPointwise("Cancelled", "cancelled");
    case Completed => LowerPointwise("Completed", "completed");
    case InProgress => LowerPointwise("In Progress", "in progress");
    case Overdue => LowerPointwise("Overdue", "overdue");
    case Pending => LowerPointwise("Pending", "pending");
  }

  lemma PriorityKeysIncreasing(p: Priority, q: Priority)
    requires PriorityAlphaRank(p) < PriorityAlphaRank(q)
    ensures Less(Lower(PriorityName(p)), Lower(PriorityName(q)))
  {
    PriorityKeys(p);
    PriorityKeys(q);
  }

  lemma StatusKeysIncreasing(s: Status, t: Status)
    requires StatusAlphaRank(s) < StatusAlphaRank(t)
    ensures Less(Lower(StatusName(s)), Lower(StatusName(t)))
  {
    StatusKeys(s);
    StatusKeys(t);
  }

  /** Priority ascending is alphabetical, not by severity:
      Critical < High < Low < Medium. */
  lemma PriorityAscendingIsAlphabetical(a: Task, b: Task)
    ensures Compare(a, b, ByPriority, Asc) < 0 <==> PriorityAlphaRank(a.priority) < PriorityAlphaRank(b.priority)
  {
    var x, y := SortKey(a, ByPriority), SortKey(b, ByPriority);
    if PriorityAlphaRank(a.priority) < PriorityAlphaRank(b.priority) {
      PriorityKeysIncreasing(a.priority, b.priority);
    } else if PriorityAlphaRank(b.priority) < PriorityAlphaRank(a.priority) {
      PriorityKeysIncreasing(b.priority, a.priority);
      LessAsymmetric(y, x);
    } else {
      assert a.priority == b.priority;
      LessIrreflexive(x);
    }
  }

  /** Status ascending is alphabetical too:
      Cancelled < Completed < In Progress < Overdue < Pending. */
  lemma StatusAscendingIsAlphabetical(a: Task, b: Task)
    ensures Compare(a, b, ByStatus, Asc) < 0 <==> StatusAlphaRank(a.status) < StatusAlphaRank(b.status)
  {
    var x, y := SortKey(a, ByStatus), SortKey(b, ByStatus);
    if StatusAlphaRank(a.status) < StatusAlphaRank(b.status) {
      StatusKeysIncreasing(a.status, b.status);
    } else if StatusAlphaRank(b.status) < StatusAlphaRank(a.status) {
      StatusKeysIncreasing(b.status, a.status);
      LessAsymmetric(y, x);
    } else {
      assert a.status == b.status;
      LessIrreflexive(x);
    }
  }

  // ---- Ascending sort as key groups ----

  /** Keys in strictly increasing string order. */
  predicate Increasing(ks: seq<string>) {
    forall i, j :: 0 <= i < j < |ks| ==> Less(ks[i], ks[j])
  }

  /** Neighbours in order make the whole sequence increasing. */
  lemma {:induction false} IncreasingFromChain(ks: seq<string>)
    requires forall i :: 0 <= i < |ks| - 1 ==> Less(ks[i], ks[i + 1])
    ensures Increasing(ks)
    decreases |ks|
  {
    if |ks| > 1 {
      IncreasingFromChain(ks[1..]);
      forall j | 1 <= j < |ks| ensures Less(ks[0], ks[j]) {
        if j > 1 {
          assert Less(ks[1..][0], ks[1..][j - 1]);
          LessTransitive(ks[0], ks[1], ks[j]);
        }
      }
      forall i, j | 0 <= i < j < |ks| ensures Less(ks[i], ks[j]) {
        if i > 0 {
          assert Less(ks[1..][i - 1], ks[1..][j - 1]);
        }
      }
    }
  }

  /** The tasks of each key in `ks`, group after group, each group in input
      order. */
  function Grouped(s: seq<Task>, ks: seq<string>, f: SortField): seq<Task>
    decreases |ks|
  {
    if ks == [] then [] else WithKey(s, ks[0], f) + Grouped(s, ks[1..], f)
  }

  lemma {:induction false} KeyedAppend<T, K>(a: seq<T>, b: seq<T>, k: K, key: T -> K)
    ensures Keyed(a + b, k, key) == Keyed(a, k, key) + Keyed(b, k, key)
  {
    if a == [] {
      assert a + b == b;
    } else {
      assert a + b == [a[0]] + (a[1..] + b);
      KeyedCons(a[0], a[1..] + b, k, key);
      KeyedAppend(a[1..], b, k, key);
    }
  }

  lemma {:induction false} KeyedTwice<T, K>(s: seq<T>, k1: K, k2: K, key: T -> K)
    ensures Keyed(Keyed(s, k1, key), k2, key) == if k1 == k2 then Keyed(s, k1, key) else []
  {
    if s != [] {
      KeyedTwice(s[1..], k1, k2, key);
      if key(s[0]) == k1 {
        KeyedCons(s[0], Keyed(s[1..], k1, key), k2, key);
      }
    }
  }

  lemma KeyedAbsent<T, K>(s: seq<T>, k: K, key: T -> K)
    requires forall i :: 0 <= i < |s| ==> key(s[i]) != k
    ensures Keyed(s, k, key) == []
  {
    var r := Keyed(s, k, key);
    if r != [] {
      KeyedMember(s, k, key, r[0]);
    }
  }

  lemma {:induction false} GroupedMember(s: seq<Task>, ks: seq<string>, f: SortField, x: Task)
    ensures x in Grouped(s, ks, f) <==> x in s && SortKey(x, f) in ks
    decreases |ks|
  {
    if ks != [] {
      GroupedMember(s, ks[1..], f, x);
      KeyedMember(s, ks[0], TaskKey(f), x);
      assert ks == [ks[0]] + ks[1..];
    }
  }

  lemma {:induction false} GroupedKeyed(s: seq<Task>, ks: seq<string>, f: SortField, k: string)
    requires Increasing(ks)
    ensures WithKey(Grouped(s, ks, f), k, f) == if k in ks then WithKey(s, k, f) else []
    decreases |ks|
  {
    if ks != [] {
      var key := TaskKey(f);
      assert Increasing(ks[1..]) by {
        forall i, j | 0 <= i < j < |ks[1..]| ensures Less(ks[1..][i], ks[1..][j]) {
          assert Less(ks[i + 1], ks[j + 1]);
        }
      }
      GroupedKeyed(s, ks[1..], f, k);
      KeyedAppend(Keyed(s, ks[0], key), Grouped(s, ks[1..], f), k, key);
      KeyedTwice(s, ks[0], k, key);
      assert ks == [ks[0]] + ks[1..];
      if k == ks[0] && k in ks[1..] {
        var j :| 0 <= j < |ks[1..]| && ks[1..][j] == k;
        assert Less(ks[0], ks[j + 1]);
        LessIrreflexive(k);
      }
    }
  }

  lemma SortedAppend(a: seq<Task>, b: seq<Task>, f: SortField, o: SortOrder)
    requires Sorted(a, f, o) && Sorted(b, f, o)
    requires forall x, y :: x in a && y in b ==> Compare(x, y, f, o) <= 0
    ensures Sorted(a + b, f, o)
  {
    var r := a + b;
    forall i, j | 0 <= i < j < |r| ensures Compare(r[i], r[j], f, o) <= 0 {
      if j < |a| {
        assert r[i] == a[i] && r[j] == a[j];
      } else if i >= |a| {
        assert r[i] == b[i - |a|] && r[j] == b[j - |a|];
      } else {
        assert r[i] == a[i] && r[j] == b[j - |a|];
      }
    }
  }

  lemma {:induction false} GroupedSorted(s: seq<Task>, ks: seq<string>, f: SortField)
    requires Increasing(ks)
    ensures Sorted(Grouped(s, ks, f), f, Asc)
    decreases |ks|
  {
    if ks != [] {
      var a, b := WithKey(s, ks[0], f), Grouped(s, ks[1..], f);
      assert Increasing(ks[1..]) by {
        forall i, j | 0 <= i < j < |ks[1..]| ensures Less(ks[1..][i], ks[1..][j]) {
          assert Less(ks[i + 1], ks[j + 1]);
        }
      }
      GroupedSorted(s, ks[1..], f);
      forall i, j | 0 <= i < j < |a| ensures Compare(a[i], a[j], f, Asc) <= 0 {
        KeyedMember(s, ks[0], TaskKey(f), a[i]);
        KeyedMember(s, ks[0], TaskKey(f), a[j]);
        CompareZeroIff(a[i], a[j], f, Asc);
      }
      forall x, y | x in a && y in b ensures Compare(x, y, f, Asc) <= 0 {
        KeyedMember(s, ks[0], TaskKey(f), x);
        GroupedMember(s, ks[1..], f, y);
        var j :| 0 <= j < |ks[1..]| && ks[1..][j] == SortKey(y, f);
        assert Less(ks[0], ks[j + 1]);
      }
      SortedAppend(a, b, f, Asc);
    }
  }

  /** An ascending sort lists the tasks key group by key group, in
      increasing key order, each group in input order. */
  lemma AscendingGroups(s: seq<Task>, ks: seq<string>, f: SortField)
    requires Increasing(ks)
    requires forall i :: 0 <= i < |s| ==> SortKey(s[i], f) in ks
    ensures StableSort(s, f, Asc) == Grouped(s, ks, f)
  {
    var r := Grouped(s, ks, f);
    GroupedSorted(s, ks, f);
    forall k ensures WithKey(r, k, f) == WithKey(s, k, f) {
      GroupedKeyed(s, ks, f, k);
      if k !in ks {
        KeyedAbsent(s, k, TaskKey(f));
      }
    }
    StableSortUnique(s, r, f, Asc);
  }
}
