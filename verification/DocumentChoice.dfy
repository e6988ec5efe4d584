// Which documents of a scanned folder are kept: the readable ones, newest
// first, as many as the limit allows.
module DocumentChoice {
  import opened Prelude
  import opened Text
  import opened FolderScans

  predicate Readable(e: Entry) { Lower(e.kind) in ["docx", "doc"] }

  // An edit time that cannot be read counts as the epoch.
  function EditTime(e: Entry): int {
    if e.editedAt.Some? then e.editedAt.value else 0
  }

  function EditedAt(k: int): Entry -> bool { (e: Entry) => EditTime(e) == k }

  function At(k: int, es: seq<Entry>): seq<Entry> { Filter(EditedAt(k), es) }

  lemma AtSplit(es: seq<Entry>, k: int)
    ensures es != [] ==> At(k, es) == (if EditTime(es[0]) == k then [es[0]] else []) + At(k, es[1..])
  {
  }

  // ---- what a stable sort by edit time, newest first, is

  ghost predicate NewestFirst(es: seq<Entry>) {
    forall i, j | 0 <= i < j < |es| :: EditTime(es[i]) >= EditTime(es[j])
  }

  ghost predicate SameAtEveryTime(es: seq<Entry>, fs: seq<Entry>) {
    forall k :: At(k, es) == At(k, fs)
  }

  ghost predicate StablySorted(es: seq<Entry>, sorted: seq<Entry>) {
    NewestFirst(sorted) && SameAtEveryTime(es, sorted)
  }

  function Insert(e: Entry, es: seq<Entry>): seq<Entry> {
    if es == [] || EditTime(e) >= EditTime(es[0]) then [e] + es else [es[0]] + Insert(e, es[1..])
  }

  function SortByEditTime(es: seq<Entry>): seq<Entry> {
    if es == [] then [] else Insert(es[0], SortByEditTime(es[1..]))
  }

  lemma {:induction false} InsertKeepsOrder(e: Entry, es: seq<Entry>)
    requires NewestFirst(es)
    ensures NewestFirst(Insert(e, es))
    ensures Insert(e, es)[0] == e || (es != [] && Insert(e, es)[0] == es[0])
  {
    if es != [] && EditTime(e) < EditTime(es[0]) {
      InsertKeepsOrder(e, es[1..]);
      var tail := Insert(e, es[1..]);
      assert forall i | 0 <= i < |tail| :: EditTime(tail[0]) >= EditTime(tail[i]);
    }
  }

  lemma {:induction false} InsertAt(e: Entry, es: seq<Entry>, k: int)
    ensures At(k, Insert(e, es)) == At(k, [e] + es)
  {
    if es != [] && EditTime(e) < EditTime(es[0]) {
      InsertAt(e, es[1..], k);
      FilterConcat(EditedAt(k), [e], es[1..]);
      FilterConcat(EditedAt(k), [es[0]], Insert(e, es[1..]));
      FilterConcat(EditedAt(k), [e], es);
      FilterConcat(EditedAt(k), [es[0]], es[1..]);
      assert [es[0]] + es[1..] == es;
    }
  }

  lemma {:induction false} SortIsStable(es: seq<Entry>)
    ensures StablySorted(es, SortByEditTime(es))
  {
    if es != [] {
      var tail := SortByEditTime(es[1..]);
      SortIsStable(es[1..]);
      InsertKeepsOrder(es[0], tail);
      forall k ensures At(k, es) == At(k, Insert(es[0], tail)) {
        InsertAt(es[0], tail, k);
        assert At(k, es[1..]) == At(k, tail);
        AtSplit(es, k);
        AtSplit([es[0]] + tail, k);
      }
    }
  }

  lemma HeadAt(es: seq<Entry>)
    requires es != []
    ensures At(EditTime(es[0]), es) != [] && At(EditTime(es[0]), es)[0] == es[0]
  {
  }

  lemma NewerThanTheHead(es: seq<Entry>, k: int)
    requires NewestFirst(es) && At(k, es) != []
    ensures es != [] && k <= EditTime(es[0])
  {
    var e := At(k, es)[0];
    assert e in es;
  }

  lemma TailSame(a: seq<Entry>, b: seq<Entry>)
    requires a != [] && b != [] && a[0] == b[0] && SameAtEveryTime(a, b)
    ensures SameAtEveryTime(a[1..], b[1..])
  {
    forall k ensures At(k, a[1..]) == At(k, b[1..]) {
      var head := if EditTime(a[0]) == k then [a[0]] else [];
      assert At(k, a) == At(k, b);
      AtSplit(a, k);
      AtSplit(b, k);
      assert At(k, a[1..]) == At(k, a)[|head|..] && At(k, b[1..]) == At(k, b)[|head|..];
    }
  }

  lemma HeadSame(a: seq<Entry>, b: seq<Entry>)
    requires a != [] && NewestFirst(a) && NewestFirst(b) && SameAtEveryTime(a, b)
    ensures b != [] && a[0] == b[0]
  {
    var ka := EditTime(a[0]);
    HeadAt(a);
    assert At(ka, a) == At(ka, b);
    NewerThanTheHead(b, ka);
    var kb := EditTime(b[0]);
    HeadAt(b);
    assert At(kb, a) == At(kb, b);
    NewerThanTheHead(a, kb);
  }

  // A stable sort is determined by what it sorts: any other sorting routine
  // that is stable keeps the same documents.
  lemma {:induction false} StableSortIsUnique(a: seq<Entry>, b: seq<Entry>)
    requires NewestFirst(a) && NewestFirst(b) && SameAtEveryTime(a, b)
    ensures a == b
    decreases |a|
  {
    if a != [] {
      HeadSame(a, b);
      TailSame(a, b);
      StableSortIsUnique(a[1..], b[1..]);
      assert a == [a[0]] + a[1..] && b == [b[0]] + b[1..];
    } else if b != [] {
      HeadSame(b, a);
    }
  }

  // ---- the choice

  function Kept(entries: seq<Entry>, limit: nat): (kept: seq<Entry>)
    ensures |kept| <= limit
  {
    Take(SortByEditTime(Filter(Readable, entries)), limit)
  }

  ghost predicate SomeAt(k: int, es: seq<Entry>) { exists i :: 0 <= i < |es| && EditTime(es[i]) == k }

  // Whatever stable sort is used, the kept documents and the ones left out make
  // up the readable ones; none left out is newer than one kept; at each edit time
  // the kept ones are the first in crawl order, and all of them as soon as
  // anything older is kept.
  lemma KeptIsTheNewest(entries: seq<Entry>, limit: nat, sorted: seq<Entry>)
    requires StablySorted(Filter(Readable, entries), sorted)
    ensures Kept(entries, limit) == Take(sorted, limit)
    ensures var docs, kept, left := Filter(Readable, entries), Kept(entries, limit), sorted[|Kept(entries, limit)|..];
      && (forall i, j | 0 <= i < |kept| && 0 <= j < |left| :: EditTime(kept[i]) >= EditTime(left[j]))
      && (forall k :: At(k, docs) == At(k, kept) + At(k, left))
      && (forall k, older | older < k && SomeAt(older, kept) :: At(k, kept) == At(k, docs))
  {
    var docs := Filter(Readable, entries);
    SortIsStable(docs);
    SameTransitive(docs, SortByEditTime(docs), sorted);
    StableSortIsUnique(SortByEditTime(docs), sorted);
    var kept := Take(sorted, limit);
    var left := sorted[|kept|..];
    assert sorted == kept + left;
    forall k ensures At(k, docs) == At(k, kept) + At(k, left) {
      assert At(k, docs) == At(k, sorted);
      FilterConcat(EditedAt(k), kept, left);
    }
    forall k, older | older < k && SomeAt(older, kept) ensures At(k, kept) == At(k, docs) {
      NoneLeftNewer(kept, left, k, older);
      NothingMore(At(k, kept), At(k, left));
    }
  }

  lemma SameTransitive(es: seq<Entry>, a: seq<Entry>, b: seq<Entry>)
    requires SameAtEveryTime(es, a) && SameAtEveryTime(es, b)
    ensures SameAtEveryTime(a, b)
  {
    forall k ensures At(k, a) == At(k, b) {
      assert At(k, es) == At(k, a) && At(k, es) == At(k, b);
    }
  }

  lemma NoneLeftNewer(kept: seq<Entry>, left: seq<Entry>, k: int, older: int)
    requires NewestFirst(kept + left) && older < k && SomeAt(older, kept)
    ensures At(k, left) == []
  {
    var i :| 0 <= i < |kept| && EditTime(kept[i]) == older;
    var all := kept + left;
    forall j | 0 <= j < |left| ensures EditTime(left[j]) <= older {
      assert all[i] == kept[i] && all[|kept| + j] == left[j];
    }
    NoneSatisfies(EditedAt(k), left);
  }

  lemma {:induction false} SameSize(es: seq<Entry>)
    ensures |SortByEditTime(es)| == |es|
    ensures multiset(SortByEditTime(es)) == multiset(es)
  {
    if es != [] {
      SameSize(es[1..]);
      InsertSize(es[0], SortByEditTime(es[1..]));
      assert es == [es[0]] + es[1..];
    }
  }

  lemma {:induction false} InsertSize(e: Entry, es: seq<Entry>)
    ensures |Insert(e, es)| == |es| + 1
    ensures multiset(Insert(e, es)) == multiset([e] + es)
  {
    if es != [] && EditTime(e) < EditTime(es[0]) {
      InsertSize(e, es[1..]);
      assert es == [es[0]] + es[1..];
    }
  }

  lemma KeptCount(entries: seq<Entry>, limit: nat)
    ensures |Kept(entries, limit)| == |Take(Filter(Readable, entries), limit)|
    ensures multiset(Kept(entries, limit)) <= multiset(Filter(Readable, entries))
  {
    var docs := Filter(Readable, entries);
    SameSize(docs);
    PrefixIsPart(SortByEditTime(docs), |Kept(entries, limit)|);
  }

  lemma PrefixIsPart(es: seq<Entry>, n: nat)
    requires n <= |es|
    ensures multiset(es[..n]) <= multiset(es)
  {
    assert es == es[..n] + es[n..];
  }

  // ---- the same from the files' own fields

  // "doc" or "docx" in any case.
  predicate WordFile(kind: string) {
    && 3 <= |kind| <= 4 && kind[0] in "dD" && kind[1] in "oO" && kind[2] in "cC"
    && (|kind| == 4 ==> kind[3] in "xX")
  }

  lemma ReadableIsWordFile(e: Entry)
    ensures Readable(e) <==> WordFile(e.kind)
  {
    var t := Lower(e.kind);
    if |t| == 4 { LowerAt(e.kind, 3); }
    if |t| >= 3 {
      LowerAt(e.kind, 0);
      LowerAt(e.kind, 1);
      LowerAt(e.kind, 2);
    }
    assert t == "doc" <==> |t| == 3 && t[0] == 'd' && t[1] == 'o' && t[2] == 'c';
    assert t == "docx" <==> |t| == 4 && t[0] == 'd' && t[1] == 'o' && t[2] == 'c' && t[3] == 'x';
  }

  // e was edited at least as late as f; without an instant, at the epoch.
  predicate AtLeastAsLate(e: Entry, f: Entry) {
    match (e.editedAt, f.editedAt)
    case (Some(a), Some(b)) => a >= b
    case (Some(a), None) => a >= 0
    case (None, Some(b)) => 0 >= b
    case (None, None) => true
  }

  lemma LaterByTime(e: Entry, f: Entry)
    ensures AtLeastAsLate(e, f) <==> EditTime(e) >= EditTime(f)
  {
  }

  lemma SortHoldsTheSame(es: seq<Entry>)
    ensures forall e :: e in SortByEditTime(es) <==> e in es
  {
    SameSize(es);
    assert forall e :: e in SortByEditTime(es) <==> e in multiset(SortByEditTime(es));
    assert forall e :: e in es <==> e in multiset(es);
  }

  lemma PrefixIsLatest(sorted: seq<Entry>, n: nat, e: Entry, f: Entry)
    requires NewestFirst(sorted) && n <= |sorted| && e in sorted[..n] && f in sorted && f !in sorted[..n]
    ensures EditTime(e) >= EditTime(f)
  {
    var i :| 0 <= i < n && sorted[i] == e;
    var j :| 0 <= j < |sorted| && sorted[j] == f;
    assert j < n ==> sorted[..n][j] == f;
  }

  ghost predicate LatestFirst(es: seq<Entry>) {
    forall i, j | 0 <= i < j < |es| :: AtLeastAsLate(es[i], es[j])
  }

  lemma KeptIsOrdered(entries: seq<Entry>, limit: nat)
    ensures LatestFirst(Kept(entries, limit))
  {
    var kept := Kept(entries, limit);
    SortIsStable(Filter(Readable, entries));
    forall i, j | 0 <= i < j < |kept| ensures AtLeastAsLate(kept[i], kept[j]) {
      LaterByTime(kept[i], kept[j]);
    }
  }

  lemma KeptAmongSorted(entries: seq<Entry>, limit: nat)
    ensures var sorted, kept := SortByEditTime(Filter(Readable, entries)), Kept(entries, limit);
      && kept == sorted[..|kept|] && (|kept| < limit ==> kept == sorted)
      && forall e :: e in sorted <==> e in entries && WordFile(e.kind)
  {
    var docs := Filter(Readable, entries);
    SortHoldsTheSame(docs);
    forall e ensures e in docs <==> e in entries && WordFile(e.kind) {
      ReadableIsWordFile(e);
    }
  }

  // What is kept are word files of the crawl, latest edit first; none that is
  // left out was edited later than one kept, and unless the limit was reached
  // none is left out.
  lemma KeptAreTheLatestWordFiles(entries: seq<Entry>, limit: nat)
    ensures var kept := Kept(entries, limit);
      && LatestFirst(kept)
      && (forall e | e in kept :: e in entries && WordFile(e.kind))
      && (forall e, f | e in kept && f in entries && WordFile(f.kind) && f !in kept :: AtLeastAsLate(e, f))
      && (|kept| < limit ==> forall f | f in entries && WordFile(f.kind) :: f in kept)
  {
    var sorted, kept := SortByEditTime(Filter(Readable, entries)), Kept(entries, limit);
    KeptIsOrdered(entries, limit);
    KeptAmongSorted(entries, limit);
    assert forall e | e in kept :: e in sorted;
    forall e, f | e in kept && f in entries && WordFile(f.kind) && f !in kept ensures AtLeastAsLate(e, f) {
      SortIsStable(Filter(Readable, entries));
      PrefixIsLatest(sorted, |kept|, e, f);
      LaterByTime(e, f);
    }
  }

  // The whole scan: no folder means nothing, otherwise the crawl and the choice.
  method ScanProjectFolder(l: Listing<Folder, RawFile>, folder: Option<Folder>, maxEntries: nat, maxDocs: nat)
    returns (entries: seq<Entry>, documents: seq<Entry>, truncated: bool)
    requires Coherent(l)
    ensures folder.None? || folder.value == "" ==> entries == [] && documents == [] && !truncated
    ensures folder.Some? && folder.value != "" ==>
      forall k | k > maxEntries :: entries == Take(BreadthFirst(l, [folder.value], k), maxEntries)
    ensures folder.Some? && folder.value != "" && |entries| < maxEntries ==>
      forall k | k > maxEntries :: entries == BreadthFirst(l, [folder.value], k)
    ensures folder.Some? && truncated ==> |BreadthFirst(l, [folder.value], maxEntries + 1)| > |entries| == maxEntries
    ensures folder.Some? && folder.value != "" ==>
      exists log :: Logged(l, log, maxEntries, entries, truncated) && Traced(l, folder.value, log, entries)
    ensures Honours(l) ==> !truncated
    ensures documents == Kept(entries, maxDocs)
  {
    if folder.None? || folder.value == "" {
      return [], [], false;
    }
    ghost var log;
    entries, truncated, log := ScanEntries(l, folder.value, maxEntries);
    forall k: nat | k > maxEntries
      ensures entries == Take(BreadthFirst(l, [folder.value], k), maxEntries)
      ensures |entries| < maxEntries ==> entries == BreadthFirst(l, [folder.value], k)
    {
      LimitPlusOneFoldersSuffice(l, folder.value, maxEntries, k);
    }
    documents := Kept(entries, maxDocs);
  }
}
