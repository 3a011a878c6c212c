/** Which workers a ScaleIn removes: by name, or the highest-numbered ones by count. */
module ScaleInSelection {
  import opened GoStrings
  import opened WorkerNames

  /** spec.toDelete.  A missing podNames list and an empty one are different inputs. */
  datatype ToDelete = ToDelete(count: int, podNames: Option<seq<string>>)

  /** `OutOfRange` is the slice expression that would panic at run time. */
  datatype Selection = Chosen(names: seq<string>) | Refused | OutOfRange

  /** The last `count` names in numeric order, measured from the number of listed pods. */
  function TopNames(sorted: seq<string>, listed: nat, count: nat): Selection
    requires count <= listed
  {
    if listed - count > |sorted| then OutOfRange else Chosen(sorted[listed - count..])
  }

  /** The names the ScaleIn asks for, before they are matched against the listed pods. */
  function Wanted(job: string, listed: seq<string>, toDelete: ToDelete): Selection {
    match toDelete.podNames
    case Some(names) => Chosen(names)
    case None =>
      if 0 < toDelete.count < |listed| then TopNames(SortNames(job, listed), |listed|, toDelete.count)
      else Refused
  }

  /** setsSaleInToDelete on the listed worker pods. */
  function Select(job: string, listed: seq<string>, toDelete: ToDelete): Selection {
    match Wanted(job, listed, toDelete)
    case Chosen(names) => Chosen(Filter(listed, names, false))
    case other => other
  }

  /** The names a count of `count` keeps. */
  function Kept(listed: seq<string>, chosen: seq<string>): seq<string> { Filter(listed, chosen, true) }

  /** By count, on distinct canonical names: the slice is in range, exactly `count` pods are
      chosen, all of them outnumber every kept pod, and at least one pod is kept. */
  lemma SelectByCount(job: string, listed: seq<string>, count: nat)
    requires NoDup(listed) && forall n :: n in listed ==> Canonical(job, n)
    requires 0 < count < |listed|
    ensures var s := Select(job, listed, ToDelete(count, None));
            && s.Chosen? && |s.names| == count && |Kept(listed, s.names)| == |listed| - count >= 1
            && (forall n :: n in s.names ==> n in listed)
            && (forall c, k :: c in s.names && k in Kept(listed, s.names) ==>
                  Canonical(job, c) && Canonical(job, k) && IndexOf(job, c) > IndexOf(job, k))
  {
    var top := WantedByCount(job, listed, count);
    var chosen := Filter(listed, top, false);
    FilterCount(listed, top);
    SelectedAgain(listed, top);
    FilterSizes(listed, chosen);
    FilterMembers(listed, top, false);
    FilterMembers(listed, chosen, true);
  }

  lemma WantedByCount(job: string, listed: seq<string>, count: nat) returns (top: seq<string>)
    requires NoDup(listed) && forall n :: n in listed ==> Canonical(job, n)
    requires 0 < count < |listed|
    ensures Wanted(job, listed, ToDelete(count, None)) == Chosen(top)
    ensures |top| == count && NoDup(top) && forall n :: n in top ==> n in listed
    ensures forall c, k :: c in top && k in listed && k !in top ==>
              IndexOf(job, c) > IndexOf(job, k)
  {
    var all := SortNames(job, listed);
    SortIsPermutation(job, listed);
    top := all[|listed| - count..];
    TopOfSorted(job, all, count);
  }

  /** In a strictly ordered list every name of the tail outnumbers every other name. */
  lemma TopOfSorted(job: string, all: seq<string>, count: nat)
    requires count <= |all| && NoDup(all) && forall n :: n in all ==> Canonical(job, n)
    requires forall i, j :: 0 <= i < j < |all| ==> IndexOf(job, all[i]) <= IndexOf(job, all[j])
    ensures forall c, k :: c in all[|all| - count..] && k in all && k !in all[|all| - count..] ==>
              IndexOf(job, c) > IndexOf(job, k)
  {
    var top := all[|all| - count..];
    forall r | |all| - count <= r < |all| ensures all[r] in top {
      assert all[r] == top[r - (|all| - count)];
    }
    forall c, k | c in top && k in all && k !in top ensures IndexOf(job, c) > IndexOf(job, k) {
      var p :| 0 <= p < |top| && top[p] == c;
      var q :| 0 <= q < |all| && all[q] == k;
      assert all[|all| - count + p] == c;
      assert c in all && c != k;
      CanonicalInjective(job, c, k);
    }
  }

  lemma {:induction false} SelectedAgain(listed: seq<string>, names: seq<string>)
    requires NoDup(listed)
    ensures |Filter(listed, Filter(listed, names, false), false)| == |Filter(listed, names, false)|
  {
    FilterNoDup(listed, names, false);
    FilterMembers(listed, names, false);
    FilterCount(listed, Filter(listed, names, false));
  }

  /** The chosen set does not depend on the order in which the pods are listed. */
  lemma SelectionIgnoresOrder(job: string, a: seq<string>, b: seq<string>, toDelete: ToDelete)
    requires multiset(a) == multiset(b)
    ensures Select(job, a, toDelete).Chosen? <==> Select(job, b, toDelete).Chosen?
    ensures Select(job, a, toDelete).Chosen? ==>
              multiset(Select(job, a, toDelete).names) == multiset(Select(job, b, toDelete).names)
  {
    assert |a| == |multiset(a)| == |multiset(b)| == |b|;
    SortOfPermutation(job, a, b);
    assert Wanted(job, a, toDelete) == Wanted(job, b, toDelete);
    match Wanted(job, a, toDelete)
    case Chosen(names) => FilterOfPermutation(a, b, names);
    case _ =>
  }

  lemma {:induction false} FilterConcat(a: seq<string>, b: seq<string>, names: seq<string>, invert: bool)
    ensures Filter(a + b, names, invert) == Filter(a, names, invert) + Filter(b, names, invert)
  {
    if a == [] {
      assert a + b == b;
    } else {
      assert (a + b)[1..] == a[1..] + b;
      FilterConcat(a[1..], b, names, invert);
    }
  }

  lemma FilterWithout(s: seq<string>, k: nat, names: seq<string>)
    requires k < |s|
    ensures multiset(Filter(s, names, false))
         == multiset(Filter(Without(s, k), names, false)) + multiset(if s[k] in names then [s[k]] else [])
  {
    var before, after := Filter(s[..k], names, false), Filter(s[k + 1..], names, false);
    var entry := if s[k] in names then [s[k]] else [];
    assert Filter(Without(s, k), names, false) == before + after by {
      FilterConcat(s[..k], s[k + 1..], names, false);
    }
    assert Filter(s, names, false) == before + (entry + after) by {
      assert s[k..][1..] == s[k + 1..];
      assert s == s[..k] + s[k..];
      FilterConcat(s[..k], s[k..], names, false);
    }
    MiddleMultiset(before, entry, after);
  }

  lemma {:induction false} FilterOfPermutation(a: seq<string>, b: seq<string>, names: seq<string>)
    requires multiset(a) == multiset(b)
    ensures multiset(Filter(a, names, false)) == multiset(Filter(b, names, false))
  {
    if a == [] {
      assert |b| == |multiset(b)| == |multiset(a)|;
    } else {
      var k := MatchHead(a, b);
      FilterOfPermutation(a[1..], Without(b, k), names);
      FilterWithout(b, k, names);
    }
  }

  /** Recovery compares the joined running list with the joined recorded one.  On non-empty
      comma-free names the texts differ exactly when the lists do. */
  lemma JoinedComparison(a: seq<string>, b: seq<string>)
    requires forall n :: n in a || n in b ==> n != "" && ',' !in n
    ensures Join(a, ',') == Join(b, ',') <==> a == b
  {
    if Join(a, ',') == Join(b, ',') {
      if a != [] && b != [] {
        SplitOfJoin(a, ',');
        SplitOfJoin(b, ',');
      } else {
        if a != [] { JoinNonEmpty(a); }
        if b != [] { JoinNonEmpty(b); }
      }
    }
  }

  lemma JoinNonEmpty(a: seq<string>)
    requires a != [] && forall n :: n in a ==> n != ""
    ensures Join(a, ',') != ""
  {
    assert a[0] in a;
  }
}
