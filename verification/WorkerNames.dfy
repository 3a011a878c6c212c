/** Worker pod names: the name/index codec, numeric ordering, and index allocation. */
module WorkerNames {
  import opened GoStrings

  const WORKER_SUFFIX: string := "-worker"

  function WorkerPrefix(job: string): string { job + WORKER_SUFFIX + "-" }

  /** getWorkerName. */
  function WorkerName(job: string, index: int): string { WorkerPrefix(job) + Itoa(index) }

  /** getWorkerIndex. */
  function WorkerIndex(job: string, name: string): ParseResult {
    ParseInt(TrimPrefix(name, WorkerPrefix(job)))
  }

  const INT32_SPAN: int := 0x1_0000_0000
  const MAX_INT32: int := 0x7FFF_FFFF

  /** Go's conversion of an int64 to int32: the low 32 bits, read as two's complement. */
  function Int32(n: int): (r: int)
    ensures -MAX_INT32 - 1 <= r <= MAX_INT32
  {
    var low := n % INT32_SPAN;
    if low > MAX_INT32 then low - INT32_SPAN else low
  }

  /** The names the operator can create: those of an int32 index. */
  predicate Canonical(job: string, name: string) {
    var r := WorkerIndex(job, name);
    r.Parsed? && r.n == Int32(r.n) && name == WorkerName(job, r.n)
  }

  function IndexOf(job: string, name: string): int
    requires Canonical(job, name)
  {
    WorkerIndex(job, name).n
  }

  ghost predicate NoDup<T>(s: seq<T>) {
    forall i, j :: 0 <= i < j < |s| ==> s[i] != s[j]
  }

  // ---------- codec ----------

  /** getWorkerIndex inverts getWorkerName for every job name, dashes included. */
  lemma IndexOfName(job: string, i: int)
    requires IsInt64(i)
    ensures WorkerIndex(job, WorkerName(job, i)) == Parsed(i)
  {
    ParseOfItoa(i);
    assert WorkerName(job, i)[|WorkerPrefix(job)|..] == Itoa(i);
  }

  lemma NamesInjective(job: string, i: int, j: int)
    requires IsInt64(i) && IsInt64(j) && WorkerName(job, i) == WorkerName(job, j)
    ensures i == j
  {
    IndexOfName(job, i);
    IndexOfName(job, j);
  }

  /** The text after the last dash of a worker name is the decimal index. */
  function LastDashPart(name: string): string {
    var parts := Split(name, '-');
    parts[|parts| - 1]
  }

  lemma LastPartAfterDash(head: string, tail: string)
    requires '-' !in tail
    ensures LastDashPart(head + ['-'] + tail) == tail
  {
    SplitConcat(head, '-', tail);
    SplitWhole(tail, '-');
  }

  lemma LastDashOfName(job: string, i: int)
    ensures LastDashPart(WorkerName(job, i)) == Digits(if i < 0 then -i else i)
  {
    if i < 0 {
      assert WorkerName(job, i) == WorkerPrefix(job) + ['-'] + Digits(-i);
      LastPartAfterDash(WorkerPrefix(job), Digits(-i));
    } else {
      assert WorkerName(job, i) == job + WORKER_SUFFIX + ['-'] + Digits(i);
      LastPartAfterDash(job + WORKER_SUFFIX, Digits(i));
    }
  }

  /** Two jobs never share a worker name either: job and index can both be read back. */
  lemma NamesOfJobsInjective(job: string, i: nat, other: string, j: nat)
    requires WorkerName(job, i) == WorkerName(other, j)
    requires IsInt64(i) && IsInt64(j)
    ensures job == other && i == j
  {
    LastDashOfName(job, i);
    LastDashOfName(other, j);
    ParseOfItoa(i);
    ParseOfItoa(j);
    var name := WorkerName(job, i);
    assert name[..|name| - |Digits(i)| - 8] == job;
    assert name[..|name| - |Digits(j)| - 8] == other;
  }

  lemma CanonicalInjective(job: string, a: string, b: string)
    requires Canonical(job, a) && Canonical(job, b) && a != b
    ensures IndexOf(job, a) != IndexOf(job, b)
  {
    assert a == WorkerName(job, IndexOf(job, a)) && b == WorkerName(job, IndexOf(job, b));
  }

  lemma CanonicalName(job: string, i: int)
    requires Int32(i) == i
    ensures Canonical(job, WorkerName(job, i)) && IndexOf(job, WorkerName(job, i)) == i
  {
    IndexOfName(job, i);
  }

  lemma Int32Fixpoint(i: int)
    ensures Int32(i) == i <==> -MAX_INT32 - 1 <= i <= MAX_INT32
  {
    if 0 <= i <= MAX_INT32 {
      assert i % INT32_SPAN == i;
    } else if -MAX_INT32 - 1 <= i < 0 {
      assert (i + INT32_SPAN) % INT32_SPAN == i % INT32_SPAN;
    }
  }

  /** createWorker narrows the index to 32 bits and prints the name again.  The pod it makes
      has the requested name exactly when the index fits. */
  lemma NarrowedName(job: string, i: int)
    requires IsInt64(i)
    ensures WorkerName(job, Int32(i)) == WorkerName(job, i) <==> -MAX_INT32 - 1 <= i <= MAX_INT32
  {
    Int32Fixpoint(i);
    if WorkerName(job, Int32(i)) == WorkerName(job, i) { NamesInjective(job, Int32(i), i); }
  }

  // ---------- allocation ----------

  /** The loop of getWorkerPodsMaxIndex, started at `best`. */
  function MaxFrom(names: seq<string>, best: int): int {
    if names == [] then best
    else
      var index := Atoi(LastDashPart(names[0]));
      MaxFrom(names[1..], if index > best then index else best)
  }

  function MaxIndex(names: seq<string>): int {
    if names == [] then -1 else MaxFrom(names, 0)
  }

  /** getWorkerPodsMaxIndex. */
  method GetWorkerPodsMaxIndex(pods: seq<string>) returns (maxIndex: int)
    ensures maxIndex == MaxIndex(pods)
  {
    if |pods| == 0 { return -1; }
    maxIndex := 0;
    for k := 0 to |pods|
      invariant MaxFrom(pods[k..], maxIndex) == MaxIndex(pods)
    {
      assert pods[k..][1..] == pods[k + 1..];
      var indexStr := LastDashPart(pods[k]);
      var index := Atoi(indexStr);
      if index > maxIndex { maxIndex := index; }
    }
  }

  lemma {:induction false} MaxFromBounds(names: seq<string>, best: int, k: nat)
    ensures MaxFrom(names, best) >= best
    ensures k < |names| ==> MaxFrom(names, best) >= Atoi(LastDashPart(names[k]))
  {
    if names != [] {
      var index := Atoi(LastDashPart(names[0]));
      MaxFromBounds(names[1..], if index > best then index else best, if k > 0 then k - 1 else 0);
    }
  }

  /** No canonical name of the list has an index above the maximum. */
  lemma MaxIndexBounds(job: string, names: seq<string>, name: string)
    requires name in names && Canonical(job, name)
    ensures IndexOf(job, name) <= MaxIndex(names) && 0 <= MaxIndex(names)
  {
    var k :| 0 <= k < |names| && names[k] == name;
    var i := IndexOf(job, name);
    MaxFromBounds(names, 0, k);
    LastDashOfName(job, i);
    ParseOfItoa(if i < 0 then -i else i);
  }

  lemma {:induction false} MaxFromAttained(job: string, names: seq<string>, best: nat)
    requires forall n :: n in names ==> Canonical(job, n) && IndexOf(job, n) >= 0
    ensures MaxFrom(names, best) == best
         || exists n :: n in names && IndexOf(job, n) == MaxFrom(names, best)
  {
    if names != [] {
      var i := IndexOf(job, names[0]);
      LastDashOfName(job, i);
      ParseOfItoa(i);
      assert Atoi(LastDashPart(names[0])) == i;
      MaxFromAttained(job, names[1..], if i > best then i else best);
    }
  }

  /** On a non-empty list of canonical names the last-dash parse yields the true maximum index. */
  lemma MaxIndexIsMaximum(job: string, names: seq<string>)
    requires names != [] && forall n :: n in names ==> Canonical(job, n) && IndexOf(job, n) >= 0
    ensures exists n :: n in names && IndexOf(job, n) == MaxIndex(names)
    ensures forall n :: n in names ==> IndexOf(job, n) <= MaxIndex(names)
  {
    forall n | n in names ensures IndexOf(job, n) <= MaxIndex(names) {
      MaxIndexBounds(job, names, n);
    }
    MaxFromAttained(job, names, 0);
    if MaxFrom(names, 0) == 0 {
      assert names[0] in names && IndexOf(job, names[0]) <= 0;
    }
  }

  /** The names max+1, max+2, ... that recovery and scale-out allocate. */
  function FreshNames(job: string, above: int, count: nat): (names: seq<string>)
    ensures |names| == count
  {
    seq(count, i requires 0 <= i < count => WorkerName(job, above + 1 + i))
  }

  /** Every index from above+1 to above+count fits in int32. */
  predicate Fits(above: int, count: nat) { -1 <= above && above + count <= MAX_INT32 }

  /** Freshly numbered names are canonical, distinct and not in the list they extend. */
  lemma FreshNamesAreNew(job: string, names: seq<string>, count: nat)
    requires forall n :: n in names ==> Canonical(job, n)
    requires Fits(MaxIndex(names), count)
    ensures var added := FreshNames(job, MaxIndex(names), count);
            && NoDup(added)
            && (forall n :: n in added ==> Canonical(job, n) && IndexOf(job, n) > MaxIndex(names))
            && (forall n :: n in added ==> n !in names)
  {
    var max := MaxIndex(names);
    var added := FreshNames(job, max, count);
    forall i | 0 <= i < count
      ensures Canonical(job, added[i]) && IndexOf(job, added[i]) == max + 1 + i
    {
      CanonicalName(job, max + 1 + i);
    }
    forall n | n in added && n in names ensures false { MaxIndexBounds(job, names, n); }
  }

  // ---------- numeric sorting ----------

  ghost predicate Ascending(s: seq<int>) {
    forall i, j :: 0 <= i < j < |s| ==> s[i] <= s[j]
  }

  function Insert(x: int, s: seq<int>): (r: seq<int>)
    requires Ascending(s)
    ensures Ascending(r) && |r| == |s| + 1
    ensures r[0] == if s == [] || x <= s[0] then x else s[0]
  {
    if s == [] || x <= s[0] then [x] + s else [s[0]] + Insert(x, s[1..])
  }

  lemma {:induction false} InsertMultiset(x: int, s: seq<int>)
    requires Ascending(s)
    ensures multiset(Insert(x, s)) == multiset(s) + multiset{x}
  {
    if s != [] {
      InsertMultiset(x, s[1..]);
      assert s == [s[0]] + s[1..];
    }
  }

  /** What sort.Sort(sort.IntSlice(s)) leaves in the slice. */
  function SortInts(s: seq<int>): (r: seq<int>)
    ensures Ascending(r) && multiset(r) == multiset(s)
  {
    if s == [] then []
    else
      assert s == [s[0]] + s[1..];
      InsertMultiset(s[0], SortInts(s[1..]));
      Insert(s[0], SortInts(s[1..]))
  }

  lemma LeastMember(s: seq<int>, x: int)
    requires Ascending(s) && x in s
    ensures s[0] <= x
  {
  }

  lemma TailMultiset(s: seq<int>)
    requires s != []
    ensures multiset(s[1..]) == multiset(s) - multiset{s[0]}
  {
    assert s == [s[0]] + s[1..];
    assert multiset(s) == multiset{s[0]} + multiset(s[1..]);
  }

  lemma SameLeast(a: seq<int>, b: seq<int>)
    requires Ascending(a) && Ascending(b) && multiset(a) == multiset(b) && a != [] && b != []
    ensures a[0] == b[0]
  {
    assert a[0] in multiset(a) && b[0] in multiset(b);
    assert a[0] in b && b[0] in a;
    LeastMember(a, b[0]);
    LeastMember(b, a[0]);
  }

  lemma {:induction false} AscendingUnique(a: seq<int>, b: seq<int>)
    requires Ascending(a) && Ascending(b) && multiset(a) == multiset(b)
    ensures a == b
    decreases |a|
  {
    assert |a| == |multiset(a)| == |multiset(b)| == |b|;
    if a != [] {
      SameLeast(a, b);
      TailMultiset(a);
      TailMultiset(b);
      AscendingUnique(a[1..], b[1..]);
      assert a == [a[0]] + a[1..] && b == [b[0]] + b[1..];
    }
  }

  /** The index of a name as a list: empty when the name does not parse. */
  function IndexList(job: string, name: string): (r: seq<int>)
    ensures forall i :: i in r ==> IsInt64(i)
  {
    match WorkerIndex(job, name) case Parsed(i) => [i] case _ => []
  }

  /** The indexes of the names that parse, in list order; the others are dropped. */
  function Indices(job: string, names: seq<string>): (r: seq<int>)
    ensures forall i :: i in r ==> IsInt64(i)
  {
    if names == [] then [] else IndexList(job, names[0]) + Indices(job, names[1..])
  }

  function Names(job: string, indices: seq<int>): (r: seq<string>)
    ensures |r| == |indices| && forall k :: 0 <= k < |r| ==> r[k] == WorkerName(job, indices[k])
  {
    if indices == [] then [] else [WorkerName(job, indices[0])] + Names(job, indices[1..])
  }

  /** sortPodNames, as a function. */
  function SortNames(job: string, names: seq<string>): seq<string> {
    Names(job, SortInts(Indices(job, names)))
  }

  lemma {:induction false} IndicesConcat(job: string, a: seq<string>, b: seq<string>)
    ensures Indices(job, a + b) == Indices(job, a) + Indices(job, b)
  {
    if a == [] {
      assert a + b == b;
    } else {
      assert (a + b)[1..] == a[1..] + b;
      IndicesConcat(job, a[1..], b);
    }
  }

  lemma IndicesTake(job: string, names: seq<string>, k: nat)
    requires k < |names|
    ensures Indices(job, names[..k + 1]) == Indices(job, names[..k]) + IndexList(job, names[k])
  {
    assert names[..k + 1] == names[..k] + [names[k]];
    IndicesConcat(job, names[..k], [names[k]]);
  }

  /** The first loop of sortPodNames: parse, and skip what does not parse. */
  method ParseIndices(job: string, workersNames: seq<string>) returns (workersIndexs: seq<int>)
    ensures workersIndexs == Indices(job, workersNames)
  {
    workersIndexs := [];
    for k := 0 to |workersNames|
      invariant workersIndexs == Indices(job, workersNames[..k])
    {
      IndicesTake(job, workersNames, k);
      match WorkerIndex(job, workersNames[k]) {
        case Parsed(i) => workersIndexs := workersIndexs + [i];
        case _ =>
      }
    }
    assert workersNames[..|workersNames|] == workersNames;
  }

  /** The second loop of sortPodNames: print every index as a name. */
  method PrintNames(job: string, workersIndexs: seq<int>) returns (workersName: seq<string>)
    ensures workersName == Names(job, workersIndexs)
  {
    workersName := [];
    for k := 0 to |workersIndexs|
      invariant |workersName| == k
      invariant forall j :: 0 <= j < k ==> workersName[j] == WorkerName(job, workersIndexs[j])
    {
      workersName := workersName + [WorkerName(job, workersIndexs[k])];
    }
  }

  /** sortPodNames. */
  method SortPodNames(job: string, workersNames: seq<string>) returns (workersName: seq<string>)
    ensures workersName == SortNames(job, workersNames)
  {
    var workersIndexs := ParseIndices(job, workersNames);
    workersName := PrintNames(job, SortInts(workersIndexs));
  }

  lemma {:induction false} NamesOfIndices(job: string, names: seq<string>)
    requires forall n :: n in names ==> Canonical(job, n)
    ensures Names(job, Indices(job, names)) == names
  {
    if names != [] {
      var rest := Indices(job, names[1..]);
      NamesOfIndices(job, names[1..]);
      assert Indices(job, names) == [IndexOf(job, names[0])] + rest;
      assert ([IndexOf(job, names[0])] + rest)[1..] == rest;
    }
  }

  lemma {:induction false} IndicesOfNames(job: string, indices: seq<int>)
    requires forall i :: i in indices ==> IsInt64(i)
    ensures Indices(job, Names(job, indices)) == indices
  {
    if indices != [] {
      IndexOfName(job, indices[0]);
      IndicesOfNames(job, indices[1..]);
      assert Names(job, indices)[1..] == Names(job, indices[1..]);
    }
  }

  lemma IndicesWithout(job: string, names: seq<string>, k: nat)
    requires k < |names|
    ensures multiset(Indices(job, names))
         == multiset(Indices(job, Without(names, k))) + multiset(IndexList(job, names[k]))
  {
    var before, after := Indices(job, names[..k]), Indices(job, names[k + 1..]);
    var entry := IndexList(job, names[k]);
    assert Indices(job, Without(names, k)) == before + after by {
      IndicesConcat(job, names[..k], names[k + 1..]);
    }
    assert Indices(job, names) == before + (entry + after) by {
      assert names[k..][1..] == names[k + 1..];
      assert names == names[..k] + names[k..];
      IndicesConcat(job, names[..k], names[k..]);
    }
    MiddleMultiset(before, entry, after);
  }

  lemma MiddleMultiset<T>(before: seq<T>, middle: seq<T>, after: seq<T>)
    ensures multiset(before + (middle + after)) == multiset(before + after) + multiset(middle)
  {
  }

  lemma WithoutMultiset<T>(s: seq<T>, k: nat)
    requires k < |s|
    ensures multiset(s) == multiset(Without(s, k)) + multiset{s[k]}
  {
    assert s == s[..k] + [s[k]] + s[k + 1..];
  }

  /** The list without its k-th element. */
  function Without<T>(s: seq<T>, k: nat): seq<T>
    requires k < |s|
  {
    s[..k] + s[k + 1..]
  }

  /** Two lists with the same elements: dropping the head of one and a copy of it from the other
      leaves two shorter lists with the same elements. */
  lemma MatchHead<T>(a: seq<T>, b: seq<T>) returns (k: nat)
    requires a != [] && multiset(a) == multiset(b)
    ensures k < |b| && b[k] == a[0] && multiset(a[1..]) == multiset(Without(b, k))
  {
    assert a[0] in multiset(a) && a[0] in b;
    k :| 0 <= k < |b| && b[k] == a[0];
    WithoutMultiset(a, 0);
    WithoutMultiset(b, k);
    assert Without(a, 0) == a[1..];
    assert multiset(a[1..]) == multiset(a) - multiset{a[0]};
    assert multiset(Without(b, k)) == multiset(b) - multiset{a[0]};
  }

  /** The indexes found depend only on which names are listed, not on their order. */
  lemma {:induction false} IndicesOfPermutation(job: string, a: seq<string>, b: seq<string>)
    requires multiset(a) == multiset(b)
    ensures multiset(Indices(job, a)) == multiset(Indices(job, b))
  {
    if a == [] {
      assert |b| == |multiset(b)| == |multiset(a)|;
    } else {
      var k := MatchHead(a, b);
      IndicesOfPermutation(job, a[1..], Without(b, k));
      IndicesWithout(job, b, k);
    }
  }

  lemma NamesWithout(job: string, indices: seq<int>, k: nat)
    requires k < |indices|
    ensures Names(job, Without(indices, k)) == Without(Names(job, indices), k)
  {
  }

  lemma {:induction false} NamesOfPermutation(job: string, a: seq<int>, b: seq<int>)
    requires multiset(a) == multiset(b)
    ensures multiset(Names(job, a)) == multiset(Names(job, b))
  {
    if a == [] {
      assert |b| == |multiset(b)| == |multiset(a)|;
    } else {
      var k := MatchHead(a, b);
      NamesOfPermutation(job, a[1..], Without(b, k));
      NamesWithout(job, b, k);
      WithoutMultiset(Names(job, b), k);
    }
  }

  lemma NoDupMultiset<T>(s: seq<T>, x: T)
    requires NoDup(s)
    ensures multiset(s)[x] <= 1
  {
    if s != [] {
      assert s == [s[0]] + s[1..];
      NoDupMultiset(s[1..], x);
    }
  }

  lemma RepeatMultiset<T>(s: seq<T>, i: nat, j: nat)
    requires i < j < |s| && s[i] == s[j]
    ensures multiset(s)[s[i]] >= 2
  {
    assert s == s[..i] + [s[i]] + s[i + 1..j] + [s[j]] + s[j + 1..];
  }

  lemma NoDupOfMultiset<T>(s: seq<T>, t: seq<T>)
    requires NoDup(s) && multiset(s) == multiset(t)
    ensures NoDup(t)
  {
    forall i, j | 0 <= i < j < |t| ensures t[i] != t[j] {
      NoDupMultiset(s, t[i]);
      if t[i] == t[j] { RepeatMultiset(t, i, j); }
    }
  }

  /** The indexes of sorted names are in ascending order. */
  lemma SortIsOrdered(job: string, names: seq<string>)
    requires forall n :: n in SortNames(job, names) ==> Canonical(job, n)
    ensures forall i, j :: 0 <= i < j < |SortNames(job, names)| ==>
              IndexOf(job, SortNames(job, names)[i]) <= IndexOf(job, SortNames(job, names)[j])
  {
    var sorted := SortInts(Indices(job, names));
    forall i | 0 <= i < |sorted| ensures IndexOf(job, SortNames(job, names)[i]) == sorted[i] {
      assert sorted[i] in multiset(sorted) && sorted[i] in Indices(job, names);
      IndexOfName(job, sorted[i]);
    }
  }

  /** On canonical names, sortPodNames permutes its input into ascending numeric order. */
  lemma SortIsPermutation(job: string, names: seq<string>)
    requires forall n :: n in names ==> Canonical(job, n)
    ensures multiset(SortNames(job, names)) == multiset(names)
    ensures forall n :: n in SortNames(job, names) <==> n in names
    ensures |SortNames(job, names)| == |names|
    ensures forall i, j :: 0 <= i < j < |SortNames(job, names)| ==>
              IndexOf(job, SortNames(job, names)[i]) <= IndexOf(job, SortNames(job, names)[j])
    ensures NoDup(names) ==> NoDup(SortNames(job, names))
  {
    var indices := Indices(job, names);
    NamesOfIndices(job, names);
    NamesOfPermutation(job, indices, SortInts(indices));
    SameElements(SortNames(job, names), names);
    SortIsOrdered(job, names);
    if NoDup(names) { NoDupOfMultiset(names, SortNames(job, names)); }
  }

  lemma SameElements<T>(a: seq<T>, b: seq<T>)
    requires multiset(a) == multiset(b)
    ensures |a| == |b| && forall x :: x in a <==> x in b
  {
    assert |a| == |multiset(a)| == |multiset(b)| == |b|;
    forall x ensures x in a <==> x in b {
      assert x in multiset(a) <==> x in multiset(b);
    }
  }

  /** Sorting twice is sorting once, on any list of strings. */
  lemma SortIdempotent(job: string, names: seq<string>)
    ensures SortNames(job, SortNames(job, names)) == SortNames(job, names)
  {
    var sorted := SortInts(Indices(job, names));
    forall i | i in sorted ensures IsInt64(i) {
      assert i in multiset(sorted);
      assert i in Indices(job, names);
    }
    IndicesOfNames(job, sorted);
    AscendingUnique(SortInts(sorted), sorted);
  }

  /** The result does not depend on the listing order. */
  lemma SortOfPermutation(job: string, a: seq<string>, b: seq<string>)
    requires multiset(a) == multiset(b)
    ensures SortNames(job, a) == SortNames(job, b)
  {
    IndicesOfPermutation(job, a, b);
    AscendingUnique(SortInts(Indices(job, a)), SortInts(Indices(job, b)));
  }

  // ---------- filtering ----------

  /** containsString. */
  method ContainsString(slice: seq<string>, s: string) returns (found: bool)
    ensures found <==> s in slice
  {
    for k := 0 to |slice|
      invariant s !in slice[..k]
    {
      if slice[k] == s { return true; }
    }
    return false;
  }

  /** The elements of `workers` that are in `names` (or, inverted, that are not), in order. */
  function Filter(workers: seq<string>, names: seq<string>, invert: bool): seq<string> {
    if workers == [] then []
    else if (workers[0] in names) != invert then [workers[0]] + Filter(workers[1..], names, invert)
    else Filter(workers[1..], names, invert)
  }

  lemma {:induction false} FilterMembers(workers: seq<string>, names: seq<string>, invert: bool)
    ensures forall w :: w in Filter(workers, names, invert) <==> w in workers && (w in names) != invert
  {
    if workers != [] {
      FilterMembers(workers[1..], names, invert);
      assert workers == [workers[0]] + workers[1..];
    }
  }

  lemma {:induction false} FilterSnoc(workers: seq<string>, w: string, names: seq<string>, invert: bool)
    ensures Filter(workers + [w], names, invert)
         == Filter(workers, names, invert) + (if (w in names) != invert then [w] else [])
  {
    if workers == [] {
      assert workers + [w] == [w] && [w][1..] == [];
    } else {
      assert (workers + [w])[1..] == workers[1..] + [w];
      FilterSnoc(workers[1..], w, names, invert);
    }
  }

  /** filterNames, and filterPodNames on the names of the pods. */
  method FilterNames(workers: seq<string>, names: seq<string>, invert: bool) returns (result: seq<string>)
    ensures result == Filter(workers, names, invert)
  {
    result := [];
    for k := 0 to |workers|
      invariant result == Filter(workers[..k], names, invert)
    {
      assert workers[..k + 1] == workers[..k] + [workers[k]];
      FilterSnoc(workers[..k], workers[k], names, invert);
      var found := ContainsString(names, workers[k]);
      if found != invert { result := result + [workers[k]]; }
    }
    assert workers[..|workers|] == workers;
  }

  lemma {:induction false} FilterNoDup(workers: seq<string>, names: seq<string>, invert: bool)
    requires NoDup(workers)
    ensures NoDup(Filter(workers, names, invert))
  {
    if workers != [] {
      FilterNoDup(workers[1..], names, invert);
      FilterMembers(workers[1..], names, invert);
    }
  }

  /** Selecting and dropping split the list in two. */
  lemma {:induction false} FilterSizes(workers: seq<string>, names: seq<string>)
    ensures |Filter(workers, names, false)| + |Filter(workers, names, true)| == |workers|
  {
    if workers != [] { FilterSizes(workers[1..], names); }
  }

  /** Selecting a duplicate-free sublist of a duplicate-free list selects exactly that many. */
  lemma {:induction false} FilterCount(workers: seq<string>, names: seq<string>)
    requires NoDup(workers) && NoDup(names) && forall n :: n in names ==> n in workers
    ensures |Filter(workers, names, false)| == |names|
  {
    FilterNoDup(workers, names, false);
    FilterMembers(workers, names, false);
    SameElementsSameSize(Filter(workers, names, false), names);
  }

  lemma {:induction false} SameElementsSameSize(a: seq<string>, b: seq<string>)
    requires NoDup(a) && NoDup(b) && forall n :: n in a <==> n in b
    ensures |a| == |b|
  {
    NoDupSetSize(a);
    NoDupSetSize(b);
    assert (set n | n in a) == (set n | n in b);
  }

  lemma {:induction false} NoDupSetSize<T>(s: seq<T>)
    requires NoDup(s)
    ensures |set n | n in s| == |s|
  {
    if s != [] {
      NoDupSetSize(s[1..]);
      assert (set n | n in s) == {s[0]} + (set n | n in s[1..]);
    }
  }
}
