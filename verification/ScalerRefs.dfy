/** References to ScaleIn/ScaleOut objects: the text stored in status.currentScaler, and the
    choice of the scaler to run next. */
module ScalerRefs {
  import opened GoStrings

  datatype Kind = ScaleIn | ScaleOut

  datatype Ref = Ref(kind: Kind, namespace: string, name: string)

  function KindText(k: Kind): string { if k == ScaleIn then "ScaleIn" else "ScaleOut" }

  /** GetFullName. */
  function FullName(r: Ref): string { KindText(r.kind) + ":" + r.namespace + "/" + r.name }

  /** types.NamespacedName. */
  datatype Key = Key(namespace: string, name: string)

  /** getNamespaceName. */
  function NamespaceName(n: string): Key {
    var v := Split(n, '/');
    if |v| < 2 then Key("", n) else Key(v[0], v[1])
  }

  /** getScalerName: the type text and the key. */
  function ScalerName(n: string): (string, Key) {
    var v := Split(n, ':');
    if |v| == 2 then (v[0], NamespaceName(v[1])) else ("", NamespaceName(n))
  }

  /** Object names never contain the two separators. */
  predicate Clean(r: Ref) {
    && ':' !in r.namespace && '/' !in r.namespace
    && ':' !in r.name && '/' !in r.name
  }

  /** The reference that executeScaling looks up, if the type text is one of the two. */
  function Resolve(n: string): Option<Ref> {
    var (t, key) := ScalerName(n);
    if t == "ScaleIn" then Some(Ref(ScaleIn, key.namespace, key.name))
    else if t == "ScaleOut" then Some(Ref(ScaleOut, key.namespace, key.name))
    else None
  }

  /** Looking up what GetFullName printed finds the same object, exactly when no separator occurs
      in the namespace or the name. */
  lemma ResolveFullName(r: Ref)
    ensures Resolve(FullName(r)) == Some(r) <==> Clean(r)
    ensures FullName(r) != ""
  {
    var path := r.namespace + ['/'] + r.name;
    assert FullName(r) == KindText(r.kind) + [':'] + path;
    SplitHead(KindText(r.kind), ':', path);
    SplitParts(path, ':');
    SplitParts(path, '/');
    if ':' !in path { SplitWhole(path, ':'); }
    if '/' !in r.namespace && '/' !in r.name {
      SplitHead(r.namespace, '/', r.name);
      SplitWhole(r.name, '/');
    }
  }

  /** Clean references have distinct full names. */
  lemma FullNameInjective(a: Ref, b: Ref)
    requires Clean(a) && Clean(b) && FullName(a) == FullName(b)
    ensures a == b
  {
    ResolveFullName(a);
    ResolveFullName(b);
  }

  // ---------- choosing the latest ----------

  /** A listed scaler with its creation time. */
  datatype Listed = Listed(ref: Ref, created: int)

  /** The loop of updateLatestScaler, started at `latest`: a strictly later scaler wins, so of
      several equally late ones the first listed is kept. */
  function LatestFrom(latest: Listed, scalers: seq<Listed>): Listed
    decreases |scalers|
  {
    if scalers == [] then latest
    else LatestFrom(if latest.created < scalers[0].created then scalers[0] else latest, scalers[1..])
  }

  /** The scan of updateLatestScaler. */
  method LatestScaler(scalers: seq<Listed>) returns (latest: Option<Listed>)
    ensures latest == if scalers == [] then None else Some(LatestFrom(scalers[0], scalers[1..]))
  {
    latest := None;
    for i := 0 to |scalers|
      invariant latest.None? <==> i == 0
      invariant latest.Some? ==>
        LatestFrom(latest.value, scalers[i..]) == LatestFrom(scalers[0], scalers[1..])
    {
      var scalerItem := scalers[i];
      assert scalers[i..][1..] == scalers[i + 1..];
      if latest == None || latest.value.created < scalerItem.created {
        latest := Some(scalerItem);
      }
    }
  }

  /** The chosen scaler is one of those listed and none of them is strictly later. */
  lemma {:induction false} LatestIsLatest(latest: Listed, scalers: seq<Listed>)
    ensures var r := LatestFrom(latest, scalers);
            && (r == latest || r in scalers)
            && latest.created <= r.created
            && forall s :: s in scalers ==> s.created <= r.created
    decreases |scalers|
  {
    if scalers != [] {
      LatestIsLatest(if latest.created < scalers[0].created then scalers[0] else latest, scalers[1..]);
    }
  }

  /** The i-th is the first of the latest. */
  ghost predicate FirstLatest(scalers: seq<Listed>, i: nat) {
    && i < |scalers|
    && (forall j :: 0 <= j < i ==> scalers[j].created < scalers[i].created)
    && forall s :: s in scalers ==> s.created <= scalers[i].created
  }

  lemma {:induction false} LatestAt(latest: Listed, scalers: seq<Listed>) returns (i: nat)
    ensures i <= |scalers|
    ensures var r := LatestFrom(latest, scalers);
            if i == 0 then r == latest
            else && r == scalers[i - 1] && latest.created < r.created
                 && forall j :: 0 <= j < i - 1 ==> scalers[j].created < r.created
    decreases |scalers|
  {
    i := 0;
    if scalers != [] {
      var later := latest.created < scalers[0].created;
      var k := LatestAt(if later then scalers[0] else latest, scalers[1..]);
      i := if k == 0 && !later then 0 else k + 1;
      assert forall j :: 0 < j < |scalers| ==> scalers[j] == scalers[1..][j - 1];
    }
  }

  /** Of several equally late scalers the first listed is chosen. */
  lemma LatestIsFirst(scalers: seq<Listed>)
    requires scalers != []
    ensures exists i: nat :: FirstLatest(scalers, i) && scalers[i] == LatestFrom(scalers[0], scalers[1..])
  {
    var i := LatestAt(scalers[0], scalers[1..]);
    LatestIsLatest(scalers[0], scalers[1..]);
    assert scalers == [scalers[0]] + scalers[1..];
    assert FirstLatest(scalers, i);
  }

  /** What is listed before the chosen one is strictly earlier. */
  lemma ListedBefore(before: seq<Listed>, after: seq<Listed>, q: Listed)
    requires q in before
    requires LatestFrom((before + after)[0], (before + after)[1..]) !in before
    ensures q.created < LatestFrom((before + after)[0], (before + after)[1..]).created
  {
    var scalers := before + after;
    LatestIsFirst(scalers);
    var i: nat :| FirstLatest(scalers, i) && scalers[i] == LatestFrom(scalers[0], scalers[1..]);
    assert i >= |before|;
    var j :| 0 <= j < |before| && before[j] == q;
    assert scalers[j] == q;
  }
}
