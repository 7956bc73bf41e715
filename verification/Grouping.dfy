/**
 Grouping of files into submissions: suggested groups from top-level folders, and the edits of a draft, none
 of which loses or doubles a file.
 */
module Grouping {
  import opened Text
  import opened Buckets
  import opened Counting

  datatype Item = Item(
    accepted: bool,
    isBase: bool,
    isArchive: bool,
    relativePath: string,
    hint: string,
    id: string,
    key: string,
    name: string,
    size: nat)

  datatype File = File(id: string, key: string, name: string, bytes: nat)

  /** Group identifiers are drawn fresh; a number stands for one. */
  datatype Group = Group(id: nat, caption: string, files: seq<File>)

  // ---- Suggested groups ----

  function Pieces(path: string): seq<string> { NonEmpty(Split(ForwardSlashes(path), '/')) }

  function NonEmpty(parts: seq<string>): (r: seq<string>)
    ensures forall p :: p in r <==> p in parts && p != ""
    ensures forall k :: 0 <= k < |r| ==> r[k] != ""
  {
    if parts == [] then [] else (if parts[0] == "" then [] else [parts[0]]) + NonEmpty(parts[1..])
  }

  function TopLevelFolder(item: Item): (r: Option<string>)
    ensures r.Some? ==> r.value != ""
  {
    var rel := OrElse(item.relativePath, item.hint);
    if rel == "" then None
    else
      var parts := Pieces(rel);
      if |parts| > 1 then Some(parts[0]) else if item.hint != "" then Some(item.hint) else None
  }

  predicate IsSubmitted(item: Item) { item.accepted && !item.isBase }

  /** What an item is collected under: its folder, or an archive's hint. */
  function FolderOf(item: Item): Option<string> {
    if !IsSubmitted(item) then None
    else if TopLevelFolder(item).Some? then TopLevelFolder(item)
    else if item.isArchive && item.hint != "" then Some(item.hint)
    else None
  }

  function Folders(items: seq<Item>): (keys: seq<Option<string>>)
    ensures |keys| == |items| && forall i :: 0 <= i < |items| ==> keys[i] == FolderOf(items[i])
  {
    seq(|items|, i requires 0 <= i < |items| => FolderOf(items[i]))
  }

  predicate IsFlat(item: Item) { IsSubmitted(item) && FolderOf(item).None? }

  /** The submitted items without a folder among the first `n`, in order. */
  function FlatUpto(items: seq<Item>, n: nat): (r: seq<nat>)
    requires n <= |items|
    ensures forall i: nat :: i in r <==> i < n && IsFlat(items[i])
    ensures Distinct(r)
  {
    if n == 0 then [] else FlatUpto(items, n - 1) + if IsFlat(items[n - 1]) then [n - 1] else []
  }

  function Flat(items: seq<Item>): (r: seq<nat>)
    ensures forall i: nat :: i in r <==> i < |items| && IsFlat(items[i])
    ensures Distinct(r)
  {
    FlatUpto(items, |items|)
  }

  /** The suggested division of items: one cluster for each folder, and one for each item without. */
  function Clusters(items: seq<Item>): (r: seq<seq<nat>>)
    ensures |r| == |Collect(Folders(items))| + |Flat(items)|
    ensures forall k :: 0 <= k < |r| ==>
              r[k] == if k < |Collect(Folders(items))| then Collect(Folders(items))[k].ids
                      else [Flat(items)[k - |Collect(Folders(items))|]]
  {
    var (gs, flat) := (Collect(Folders(items)), Flat(items));
    seq(|gs| + |flat|, k requires 0 <= k < |gs| + |flat| => if k < |gs| then gs[k].ids else [flat[k - |gs|]])
  }

  /** A hint always makes a folder, so the archive's own branch is never taken. */
  lemma ArchiveBranchIsIdle(item: Item)
    requires IsSubmitted(item)
    ensures FolderOf(item) == TopLevelFolder(item)
  {
  }

  /** Accepted items that are not base files are divided by the first of two or more pieces of their path, else by their hint. */
  lemma FolderIff(item: Item)
    ensures var rel := if item.relativePath != "" then item.relativePath else item.hint;
            var pieces := NonEmpty(Split(ForwardSlashes(rel), '/'));
            FolderOf(item) == if !item.accepted || item.isBase then None
                              else if rel != "" && |pieces| >= 2 then Some(pieces[0])
                              else if item.hint != "" then Some(item.hint) else None
  {
    hide NonEmpty, Split, ForwardSlashes;
  }

  predicate InCluster(c: seq<nat>, i: nat) { i in c }

  /** Every submitted item is in exactly one cluster, and nothing else is in any. */
  lemma {:induction false} EachItemOnce(items: seq<Item>, i: nat)
    ensures i < |items| && IsSubmitted(items[i]) <==> exists k :: 0 <= k < |Clusters(items)| && InCluster(Clusters(items)[k], i)
    ensures forall j, k :: 0 <= j < k < |Clusters(items)| && InCluster(Clusters(items)[j], i) ==> !InCluster(Clusters(items)[k], i)
    ensures forall k :: 0 <= k < |Clusters(items)| ==> Clusters(items)[k] != [] && Distinct(Clusters(items)[k])
  {
    var gs, flat, cs := Collect(Folders(items)), Flat(items), Clusters(items);
    CollectPartitions(Folders(items));
    hide Collect, FolderOf, Clusters, Flat;
    forall k | 0 <= k < |cs| && InCluster(cs[k], i)
      ensures i < |items| && IsSubmitted(items[i])
      ensures if k < |gs| then FolderOf(items[i]) == Some(gs[k].key) else FolderOf(items[i]).None? && flat[k - |gs|] == i
    {
      InOne(items, gs, flat, k, i);
    }
    if i < |items| && IsSubmitted(items[i]) {
      if FolderOf(items[i]).Some? {
        var k := FindKey(gs, FolderOf(items[i]).value);
        assert HoldsOwn(gs[k], Folders(items));
        assert InCluster(cs[k], i);
      } else {
        var n :| 0 <= n < |flat| && flat[n] == i;
        assert InCluster(cs[|gs| + n], i);
      }
    }
    forall k | 0 <= k < |cs| ensures cs[k] != [] && Distinct(cs[k]) {
      assert k < |gs| ==> Ascending(gs[k].ids);
    }
  }

  lemma {:induction false} InOne(items: seq<Item>, gs: seq<Bucket<string>>, flat: seq<nat>, k: nat, i: nat)
    requires gs == Collect(Folders(items)) && flat == Flat(items) && k < |Clusters(items)| && InCluster(Clusters(items)[k], i)
    ensures i < |items| && IsSubmitted(items[i])
    ensures if k < |gs| then FolderOf(items[i]) == Some(gs[k].key) else FolderOf(items[i]).None? && flat[k - |gs|] == i
  {
    CollectPartitions(Folders(items));
    hide Collect, Clusters, Flat, TopLevelFolder;
    if k < |gs| {
      assert HoldsOwn(gs[k], Folders(items));
      MemberBelow(gs[k], Folders(items), i);
      assert Folders(items)[i] == FolderOf(items[i]);
    } else {
      assert flat[k - |gs|] in flat;
    }
  }

  /** Two items share a cluster exactly when they share a folder: a top-level folder is never split. */
  lemma {:induction false} FoldersStayWhole(items: seq<Item>, i: nat, j: nat)
    requires i < |items| && j < |items| && i != j && IsSubmitted(items[i]) && IsSubmitted(items[j])
    ensures (exists k :: 0 <= k < |Clusters(items)| && InCluster(Clusters(items)[k], i) && InCluster(Clusters(items)[k], j)) <==>
              FolderOf(items[i]).Some? && FolderOf(items[i]) == FolderOf(items[j])
  {
    var gs, flat, cs := Collect(Folders(items)), Flat(items), Clusters(items);
    CollectPartitions(Folders(items));
    hide Collect, FolderOf, Clusters, Flat;
    forall k | 0 <= k < |cs| && InCluster(cs[k], i) && InCluster(cs[k], j)
      ensures FolderOf(items[i]).Some? && FolderOf(items[i]) == FolderOf(items[j])
    {
      InOne(items, gs, flat, k, i);
      InOne(items, gs, flat, k, j);
    }
    if FolderOf(items[i]).Some? && FolderOf(items[i]) == FolderOf(items[j]) {
      var k := FindKey(gs, FolderOf(items[i]).value);
      assert HoldsOwn(gs[k], Folders(items));
      assert InCluster(cs[k], i) && InCluster(cs[k], j);
    }
  }

  function ToFile(item: Item): File { File(item.id, item.key, item.name, item.size) }

  ghost predicate FilesFrom(items: seq<Item>, ids: seq<nat>, files: seq<File>) {
    |files| == |ids| && forall j :: 0 <= j < |ids| ==> ids[j] < |items| && files[j] == ToFile(items[ids[j]])
  }

  /** One group for each of the first clusters, numbered by position, with its items in order. */
  ghost predicate GroupsFrom(items: seq<Item>, clusters: seq<seq<nat>>, groups: seq<Group>) {
    |groups| == |clusters| && forall k :: 0 <= k < |groups| ==> groups[k].id == k && FilesFrom(items, clusters[k], groups[k].files)
  }

  method FilesOf(items: seq<Item>, ids: seq<nat>) returns (files: seq<File>)
    requires forall j :: 0 <= j < |ids| ==> ids[j] < |items|
    ensures FilesFrom(items, ids, files)
  {
    files := [];
    for j := 0 to |ids|
      invariant |files| == j && forall i :: 0 <= i < j ==> files[i] == ToFile(items[ids[i]])
    {
      files := files + [ToFile(items[ids[j]])];
    }
  }

  lemma {:induction false} ClustersInRange(items: seq<Item>, k: nat)
    requires k < |Clusters(items)|
    ensures forall j :: 0 <= j < |Clusters(items)[k]| ==> Clusters(items)[k][j] < |items|
  {
    forall j | 0 <= j < |Clusters(items)[k]| ensures Clusters(items)[k][j] < |items| {
      assert InCluster(Clusters(items)[k], Clusters(items)[k][j]);
      InOne(items, Collect(Folders(items)), Flat(items), k, Clusters(items)[k][j]);
    }
  }

  /** Each cluster becomes a group, and empty groups are added until there are two. */
  method SuggestGroups(items: seq<Item>) returns (groups: seq<Group>)
    ensures |groups| == (if |Clusters(items)| < 2 then 2 else |Clusters(items)|)
    ensures GroupsFrom(items, Clusters(items), groups[..|Clusters(items)|])
    ensures forall k :: |Clusters(items)| <= k < |groups| ==> groups[k].id == k && groups[k].files == []
  {
    hide FolderOf, Collect, Flat, FilesFrom;
    var byFolder := CollectAll(Folders(items));
    var flat := Flat(items);
    ghost var clusters := Clusters(items);
    groups := [];
    for g := 0 to |byFolder|
      invariant GroupsFrom(items, clusters[..g], groups)
    {
      ClustersInRange(items, g);
      var files := FilesOf(items, byFolder[g].ids);
      groups := groups + [Group(g, Take(byFolder[g].key, 80), files)];
    }
    for f := 0 to |flat|
      invariant GroupsFrom(items, clusters[..|byFolder| + f], groups)
    {
      ClustersInRange(items, |byFolder| + f);
      assert clusters[|byFolder| + f] == [flat[f]] && [flat[f]][0] == flat[f];
      var files := FilesOf(items, [flat[f]]);
      groups := groups + [Group(|groups|, Take(items[flat[f]].name, 80), files)];
    }
    ghost var n := |clusters|;
    assert clusters[..n] == clusters;
    while |groups| < 2
      invariant n <= |groups| && GroupsFrom(items, clusters, groups[..n])
      invariant |groups| > n ==> |groups| <= 2
      invariant forall k :: n <= k < |groups| ==> groups[k].id == k && groups[k].files == []
      decreases 2 - |groups|
    {
      groups := groups + [Group(|groups|, "", [])];
    }
  }

  // ---- Edits of a draft ----

  function FindGroup(gs: seq<Group>, id: nat): (i: nat)
    ensures i <= |gs|
    ensures i < |gs| ==> gs[i].id == id
    ensures forall k :: 0 <= k < i ==> gs[k].id != id
  {
    if gs == [] || gs[0].id == id then 0 else 1 + FindGroup(gs[1..], id)
  }

  function FindFile(fs: seq<File>, key: string): (i: nat)
    ensures i <= |fs|
    ensures i < |fs| ==> fs[i].key == key
    ensures forall k :: 0 <= k < i ==> fs[k].key != key
  {
    if fs == [] || fs[0].key == key then 0 else 1 + FindFile(fs[1..], key)
  }

  function WithFiles(gs: seq<Group>, i: nat, fs: seq<File>): seq<Group>
    requires i < |gs|
  {
    gs[i := gs[i].(files := fs)]
  }

  /** None is a refused edit, which leaves the draft as it was. */
  function MoveFile(gs: seq<Group>, fromId: nat, toId: nat, key: string): Option<seq<Group>> {
    var (a, b) := (FindGroup(gs, fromId), FindGroup(gs, toId));
    if a == |gs| || b == |gs| then None
    else
      var i := FindFile(gs[a].files, key);
      if i == |gs[a].files| then None
      else
        var taken := WithFiles(gs, a, gs[a].files[..i] + gs[a].files[i + 1..]);
        Some(WithFiles(taken, b, taken[b].files + [gs[a].files[i]]))
  }

  function Dropped(gs: seq<Group>, id: nat): (r: seq<Group>) {
    if gs == [] then [] else (if gs[0].id == id then [] else [gs[0]]) + Dropped(gs[1..], id)
  }

  function MergeGroups(gs: seq<Group>, sourceId: nat, targetId: nat): Option<seq<Group>> {
    var (a, b) := (FindGroup(gs, sourceId), FindGroup(gs, targetId));
    if a == |gs| || b == |gs| || sourceId == targetId then None
    else Some(Dropped(WithFiles(gs, b, gs[b].files + gs[a].files), sourceId))
  }

  function KeyOf(f: File): string { OrElse(f.key, f.id) }

  function Chosen(fs: seq<File>, keys: set<string>, wanted: bool): seq<File> {
    if fs == [] then []
    else (if (KeyOf(fs[0]) in keys) == wanted then [fs[0]] else []) + Chosen(fs[1..], keys, wanted)
  }

  /** Splitting draws a fresh identifier for the new group. */
  function SplitGroup(gs: seq<Group>, id: nat, keys: set<string>, newId: nat): Option<seq<Group>> {
    var a := FindGroup(gs, id);
    if a == |gs| then None
    else
      var moving := Chosen(gs[a].files, keys, true);
      if moving == [] then None
      else Some(WithFiles(gs, a, Chosen(gs[a].files, keys, false)) + [Group(newId, gs[a].caption + " (split)", moving)])
  }

  function Picked(gs: seq<Group>, ids: seq<nat>): seq<Group>
    decreases |ids|
  {
    if ids == [] then []
    else
      var i := FindGroup(gs, ids[0]);
      (if i < |gs| then [gs[i]] else []) + Picked(gs, ids[1..])
  }

  function ReorderGroups(gs: seq<Group>, ids: seq<nat>): Option<seq<Group>> {
    if |ids| != |gs| || |Picked(gs, ids)| != |ids| then None else Some(Picked(gs, ids))
  }

  datatype Edit =
    | Move(fromId: nat, toId: nat, key: string)
    | Merge(sourceId: nat, targetId: nat)
    | SplitOff(id: nat, keys: set<string>, newId: nat)
    | Reorder(ids: seq<nat>)

  function Ids(gs: seq<Group>): (r: seq<nat>)
    ensures |r| == |gs| && forall k :: 0 <= k < |gs| ==> r[k] == gs[k].id
  {
    seq(|gs|, k requires 0 <= k < |gs| => gs[k].id)
  }

  /** Split draws a new identifier, and a reorder list names no group twice. */
  predicate Enabled(gs: seq<Group>, e: Edit) {
    match e
    case SplitOff(_, _, newId) => newId !in Ids(gs)
    case Reorder(ids) => Distinct(ids)
    case _ => true
  }

  function Edited(gs: seq<Group>, e: Edit): Option<seq<Group>> {
    match e
    case Move(fromId, toId, key) => MoveFile(gs, fromId, toId, key)
    case Merge(sourceId, targetId) => MergeGroups(gs, sourceId, targetId)
    case SplitOff(id, keys, newId) => SplitGroup(gs, id, keys, newId)
    case Reorder(ids) => ReorderGroups(gs, ids)
  }

  function Step(gs: seq<Group>, e: Edit): seq<Group> { if Edited(gs, e).Some? then Edited(gs, e).value else gs }

  // ---- Conservation ----

  function AllFiles(gs: seq<Group>): multiset<File> {
    if gs == [] then multiset{} else multiset(gs[0].files) + AllFiles(gs[1..])
  }

  lemma {:induction false} UpdateCounts(gs: seq<Group>, i: nat, fs: seq<File>, f: File)
    requires i < |gs|
    ensures AllFiles(WithFiles(gs, i, fs))[f] + multiset(gs[i].files)[f] == AllFiles(gs)[f] + multiset(fs)[f]
  {
    var hs := WithFiles(gs, i, fs);
    if i == 0 {
      assert hs[1..] == gs[1..];
    } else {
      UpdateCounts(gs[1..], i - 1, fs, f);
      assert hs[1..] == WithFiles(gs[1..], i - 1, fs);
    }
  }

  lemma UpdateIds(gs: seq<Group>, i: nat, fs: seq<File>)
    requires i < |gs|
    ensures Ids(WithFiles(gs, i, fs)) == Ids(gs)
  {
  }

  lemma {:induction false} AppendCounts(gs: seq<Group>, h: Group, f: File)
    ensures AllFiles(gs + [h])[f] == AllFiles(gs)[f] + multiset(h.files)[f]
  {
    if gs == [] {
      assert gs + [h] == [h] && [h][1..] == [];
    } else {
      assert (gs + [h])[1..] == gs[1..] + [h];
      AppendCounts(gs[1..], h, f);
    }
  }

  lemma ConcatCounts(a: seq<File>, b: seq<File>, f: File)
    ensures multiset(a + b)[f] == multiset(a)[f] + multiset(b)[f]
  {
  }

  /** Taking out one file, wherever it is. */
  lemma RemoveCounts(fs: seq<File>, i: nat, f: File)
    requires i < |fs|
    ensures multiset(fs[..i] + fs[i + 1..])[f] + multiset([fs[i]])[f] == multiset(fs)[f]
  {
    assert fs == fs[..i] + ([fs[i]] + fs[i + 1..]);
    ConcatCounts(fs[..i], [fs[i]] + fs[i + 1..], f);
    ConcatCounts([fs[i]], fs[i + 1..], f);
    ConcatCounts(fs[..i], fs[i + 1..], f);
  }

  lemma MoveConserves(gs: seq<Group>, fromId: nat, toId: nat, key: string)
    requires MoveFile(gs, fromId, toId, key).Some?
    ensures var hs := MoveFile(gs, fromId, toId, key).value; AllFiles(hs) == AllFiles(gs) && Ids(hs) == Ids(gs)
  {
    hide AllFiles, FindGroup, FindFile, WithFiles;
    var a, b := FindGroup(gs, fromId), FindGroup(gs, toId);
    var fs := gs[a].files;
    var i := FindFile(fs, key);
    var rest := fs[..i] + fs[i + 1..];
    var taken := WithFiles(gs, a, rest);
    UpdateIds(gs, a, rest);
    UpdateIds(taken, b, taken[b].files + [fs[i]]);
    var hs := WithFiles(taken, b, taken[b].files + [fs[i]]);
    forall f ensures AllFiles(hs)[f] == AllFiles(gs)[f] {
      UpdateCounts(gs, a, rest, f);
      UpdateCounts(taken, b, taken[b].files + [fs[i]], f);
      RemoveCounts(fs, i, f);
      ConcatCounts(taken[b].files, [fs[i]], f);
    }
    assert AllFiles(hs) == AllFiles(gs);
  }

  lemma {:induction false} DropUnknown(gs: seq<Group>, id: nat)
    requires forall k :: 0 <= k < |gs| ==> gs[k].id != id
    ensures Dropped(gs, id) == gs
  {
    if gs != [] { DropUnknown(gs[1..], id); }
  }

  ghost predicate IdsDiffer(gs: seq<Group>) { forall a, b :: 0 <= a < b < |gs| ==> gs[a].id != gs[b].id }

  lemma IdsDistinct(gs: seq<Group>)
    ensures IdsDiffer(gs) <==> Distinct(Ids(gs))
  {
    if Distinct(Ids(gs)) {
      forall a, b | 0 <= a < b < |gs| ensures gs[a].id != gs[b].id { assert Ids(gs)[a] != Ids(gs)[b]; }
    }
  }

  /** With distinct identifiers, dropping one group takes exactly it. */
  lemma {:induction false} DropOne(gs: seq<Group>, i: nat)
    requires i < |gs| && IdsDiffer(gs)
    ensures Dropped(gs, gs[i].id) == gs[..i] + gs[i + 1..]
  {
    if i == 0 {
      DropUnknown(gs[1..], gs[0].id);
    } else {
      assert gs[0].id != gs[i].id;
      DropOne(gs[1..], i - 1);
      assert gs[..i] + gs[i + 1..] == [gs[0]] + (gs[1..][..i - 1] + gs[1..][i..]);
    }
  }

  lemma {:induction false} DropCounts(gs: seq<Group>, i: nat, f: File)
    requires i < |gs|
    ensures AllFiles(gs[..i] + gs[i + 1..])[f] + multiset(gs[i].files)[f] == AllFiles(gs)[f]
  {
    if i == 0 {
      assert gs[..0] + gs[1..] == gs[1..];
    } else {
      DropCounts(gs[1..], i - 1, f);
      assert gs[..i] + gs[i + 1..] == [gs[0]] + (gs[1..][..i - 1] + gs[1..][i..]);
    }
  }

  lemma MergeConserves(gs: seq<Group>, sourceId: nat, targetId: nat)
    requires IdsDiffer(gs) && MergeGroups(gs, sourceId, targetId).Some?
    ensures var hs := MergeGroups(gs, sourceId, targetId).value; AllFiles(hs) == AllFiles(gs) && IdsDiffer(hs)
  {
    hide AllFiles, FindGroup, Dropped;
    var a, b := FindGroup(gs, sourceId), FindGroup(gs, targetId);
    var both := gs[b].files + gs[a].files;
    var merged := WithFiles(gs, b, both);
    assert merged[a] == gs[a];
    DropOne(merged, a);
    var hs := merged[..a] + merged[a + 1..];
    forall f ensures AllFiles(hs)[f] == AllFiles(gs)[f] {
      UpdateCounts(gs, b, both, f);
      ConcatCounts(gs[b].files, gs[a].files, f);
      DropCounts(merged, a, f);
    }
    assert AllFiles(hs) == AllFiles(gs);
  }

  lemma {:induction false} ChosenDivides(fs: seq<File>, keys: set<string>, f: File)
    ensures multiset(Chosen(fs, keys, true))[f] + multiset(Chosen(fs, keys, false))[f] == multiset(fs)[f]
  {
    hide KeyOf;
    if fs != [] {
      ChosenDivides(fs[1..], keys, f);
      assert fs == [fs[0]] + fs[1..];
      ConcatCounts([fs[0]], fs[1..], f);
      ChosenCounts(fs, keys, true, f);
      ChosenCounts(fs, keys, false, f);
      hide Chosen;
    }
  }

  lemma ChosenCounts(fs: seq<File>, keys: set<string>, wanted: bool, f: File)
    requires fs != []
    ensures multiset(Chosen(fs, keys, wanted))[f] ==
            multiset(Chosen(fs[1..], keys, wanted))[f] + (if (KeyOf(fs[0]) in keys) == wanted then multiset([fs[0]])[f] else 0)
  {
    hide KeyOf;
    var rest := Chosen(fs[1..], keys, wanted);
    ConcatCounts([fs[0]], rest, f);
    assert [] + rest == rest;
  }

  lemma SplitConserves(gs: seq<Group>, id: nat, keys: set<string>, newId: nat)
    requires IdsDiffer(gs) && newId !in Ids(gs) && SplitGroup(gs, id, keys, newId).Some?
    ensures var hs := SplitGroup(gs, id, keys, newId).value; AllFiles(hs) == AllFiles(gs) && IdsDiffer(hs)
  {
    hide FindGroup, Chosen, AllFiles;
    var a := FindGroup(gs, id);
    var moving, staying := Chosen(gs[a].files, keys, true), Chosen(gs[a].files, keys, false);
    var last := Group(newId, gs[a].caption + " (split)", moving);
    var hs := WithFiles(gs, a, staying) + [last];
    forall f ensures AllFiles(hs)[f] == AllFiles(gs)[f] {
      UpdateCounts(gs, a, staying, f);
      AppendCounts(WithFiles(gs, a, staying), last, f);
      ChosenDivides(gs[a].files, keys, f);
    }
    assert AllFiles(hs) == AllFiles(gs);
    assert forall k :: 0 <= k < |gs| ==> gs[k].id == Ids(gs)[k] != newId;
  }

  // ---- Reordering ----

  lemma {:induction false} PickedAll(gs: seq<Group>, ids: seq<nat>)
    ensures |Picked(gs, ids)| <= |ids|
    ensures |Picked(gs, ids)| == |ids| <==> forall k :: 0 <= k < |ids| ==> FindGroup(gs, ids[k]) < |gs|
    ensures |Picked(gs, ids)| == |ids| ==> forall k :: 0 <= k < |ids| ==> Picked(gs, ids)[k] == gs[FindGroup(gs, ids[k])]
    decreases |ids|
  {
    hide FindGroup;
    if ids != [] {
      PickedAll(gs, ids[1..]);
    }
  }

  lemma FoundIff(gs: seq<Group>, id: nat)
    ensures FindGroup(gs, id) < |gs| <==> id in Ids(gs)
  {
    hide FindGroup;
    var i := FindGroup(gs, id);
    assert i < |gs| ==> Ids(gs)[i] == id;
    assert i == |gs| ==> forall k :: 0 <= k < |gs| ==> Ids(gs)[k] != id;
  }

  /** A list without repetition is accepted exactly when it is a permutation of the group identifiers. */
  lemma ReorderIffPermutation(gs: seq<Group>, ids: seq<nat>)
    requires IdsDiffer(gs) && Distinct(ids)
    ensures ReorderGroups(gs, ids).Some? <==> multiset(ids) == multiset(Ids(gs))
    ensures ReorderGroups(gs, ids).Some? ==> Ids(ReorderGroups(gs, ids).value) == ids
  {
    hide FindGroup, Picked, Distinct;
    PickedAll(gs, ids);
    forall k | 0 <= k < |ids| ensures FindGroup(gs, ids[k]) < |gs| <==> ids[k] in Ids(gs) { FoundIff(gs, ids[k]); }
    IdsDistinct(gs);
    SamePermutation(ids, Ids(gs));
  }

  lemma {:induction false} PermutedFiles(gs: seq<Group>, hs: seq<Group>)
    requires multiset(gs) == multiset(hs)
    ensures AllFiles(gs) == AllFiles(hs)
    decreases |gs|
  {
    assert |gs| == |multiset(gs)| == |multiset(hs)| == |hs|;
    if gs != [] {
      assert gs[0] in multiset(hs);
      var i :| 0 <= i < |hs| && hs[i] == gs[0];
      RestPermuted(gs, hs, i);
      PermutedFiles(gs[1..], hs[..i] + hs[i + 1..]);
      forall f ensures AllFiles(hs)[f] == AllFiles(gs)[f] { DropCounts(hs, i, f); }
      hide AllFiles;
      assert AllFiles(hs) == AllFiles(gs);
    }
  }

  lemma RestPermuted(gs: seq<Group>, hs: seq<Group>, i: nat)
    requires multiset(gs) == multiset(hs) && gs != [] && i < |hs| && hs[i] == gs[0]
    ensures multiset(gs[1..]) == multiset(hs[..i] + hs[i + 1..])
  {
    assert gs == [gs[0]] + gs[1..] && hs == hs[..i] + ([hs[i]] + hs[i + 1..]);
    assert multiset(gs) == multiset{gs[0]} + multiset(gs[1..]);
    assert multiset(hs) == multiset(hs[..i]) + (multiset{hs[i]} + multiset(hs[i + 1..]));
    var rest := hs[..i] + hs[i + 1..];
    assert multiset(rest) == multiset(hs[..i]) + multiset(hs[i + 1..]);
    forall g ensures multiset(gs[1..])[g] == multiset(rest)[g] {
      assert multiset(gs)[g] == multiset(hs)[g];
    }
  }

  /** The groups with the same identifiers in another order are the same groups. */
  lemma ReorderConserves(gs: seq<Group>, ids: seq<nat>)
    requires IdsDiffer(gs) && Distinct(ids) && ReorderGroups(gs, ids).Some?
    ensures var hs := ReorderGroups(gs, ids).value; multiset(hs) == multiset(gs) && AllFiles(hs) == AllFiles(gs) && IdsDiffer(hs)
  {
    hide Picked, AllFiles, FindGroup;
    var hs := ReorderGroups(gs, ids).value;
    ReorderIffPermutation(gs, ids);
    PickedAll(gs, ids);
    IdsDistinct(hs);
    forall k | 0 <= k < |hs| ensures hs[k] in gs { assert hs[k] == gs[FindGroup(gs, ids[k])]; }
    SamePermutation(hs, gs);
    PermutedFiles(gs, hs);
  }

  // ---- What each edit does ----

  predicate IsGroup(gs: seq<Group>, a: nat, id: nat) { a < |gs| && gs[a].id == id }

  lemma FoundAt(gs: seq<Group>, a: nat, id: nat)
    requires IdsDiffer(gs) && IsGroup(gs, a, id)
    ensures FindGroup(gs, id) == a
  {
    var i := FindGroup(gs, id);
    assert i <= a;
  }

  /** The first file with the key. */
  predicate IsFile(fs: seq<File>, i: nat, key: string) {
    i < |fs| && fs[i].key == key && forall k :: 0 <= k < i ==> fs[k].key != key
  }

  /** A move takes the first file with the key from one group and puts it last in the other; it needs both groups and the file. */
  lemma MoveOutcome(gs: seq<Group>, fromId: nat, toId: nat, key: string)
    requires IdsDiffer(gs)
    ensures MoveFile(gs, fromId, toId, key).Some? <==>
              exists a: nat, b: nat, i: nat :: IsGroup(gs, a, fromId) && IsGroup(gs, b, toId) && IsFile(gs[a].files, i, key)
    ensures forall a: nat, b: nat, i: nat, g: nat :: IsGroup(gs, a, fromId) && IsGroup(gs, b, toId) && IsFile(gs[a].files, i, key) && g < |gs| ==>
              var hs := MoveFile(gs, fromId, toId, key).value;
              && |hs| == |gs|
              && hs[g] == gs[g].(files := (if g == a then gs[a].files[..i] + gs[a].files[i + 1..] else gs[g].files)
                                          + (if g == b then [gs[a].files[i]] else []))
  {
    hide FindGroup, FindFile;
    var a, b := FindGroup(gs, fromId), FindGroup(gs, toId);
    if a < |gs| && b < |gs| {
      assert IsGroup(gs, a, fromId) && IsGroup(gs, b, toId);
      var i := FindFile(gs[a].files, key);
      if i < |gs[a].files| { assert IsFile(gs[a].files, i, key); }
    }
    forall x: nat, id | IsGroup(gs, x, id) ensures FindGroup(gs, id) == x { FoundAt(gs, x, id); }
    forall fs: seq<File>, i: nat | IsFile(fs, i, key) ensures FindFile(fs, key) == i {}
  }

  /** A merge puts the source's files after the target's and drops the source alone; it needs two groups. */
  lemma MergeOutcome(gs: seq<Group>, sourceId: nat, targetId: nat)
    requires IdsDiffer(gs)
    ensures MergeGroups(gs, sourceId, targetId).Some? <==>
              sourceId != targetId && exists a: nat, b: nat :: IsGroup(gs, a, sourceId) && IsGroup(gs, b, targetId)
    ensures forall a: nat, b: nat :: IsGroup(gs, a, sourceId) && IsGroup(gs, b, targetId) && a != b ==>
              var merged := gs[b := gs[b].(files := gs[b].files + gs[a].files)];
              MergeGroups(gs, sourceId, targetId) == Some(merged[..a] + merged[a + 1..])
  {
    hide FindGroup, Dropped;
    var a, b := FindGroup(gs, sourceId), FindGroup(gs, targetId);
    if a < |gs| && b < |gs| { assert IsGroup(gs, a, sourceId) && IsGroup(gs, b, targetId); }
    forall a: nat, b: nat | IsGroup(gs, a, sourceId) && IsGroup(gs, b, targetId) && a != b
      ensures var merged := gs[b := gs[b].(files := gs[b].files + gs[a].files)];
              MergeGroups(gs, sourceId, targetId) == Some(merged[..a] + merged[a + 1..])
    {
      FoundAt(gs, a, sourceId);
      FoundAt(gs, b, targetId);
      DropOne(gs[b := gs[b].(files := gs[b].files + gs[a].files)], a);
    }
  }

  /** The key a file is chosen by: its own, or its id where it has none. */
  predicate IsChosen(f: File, keys: set<string>) { if f.key != "" then f.key in keys else f.id in keys }

  lemma {:induction false} ChosenIs(fs: seq<File>, keys: set<string>, wanted: bool)
    ensures forall f :: f in Chosen(fs, keys, wanted) <==> f in fs && IsChosen(f, keys) == wanted
  {
    if fs != [] { ChosenIs(fs[1..], keys, wanted); }
  }

  /** A split takes exactly the chosen files into a new last group; it needs the group and a chosen file. */
  lemma SplitOutcome(gs: seq<Group>, id: nat, keys: set<string>, newId: nat)
    requires IdsDiffer(gs)
    ensures SplitGroup(gs, id, keys, newId).Some? <==> exists a: nat :: IsGroup(gs, a, id) && exists f <- gs[a].files :: IsChosen(f, keys)
    ensures forall a: nat :: IsGroup(gs, a, id) && SplitGroup(gs, id, keys, newId).Some? ==>
              var hs := SplitGroup(gs, id, keys, newId).value;
              && |hs| == |gs| + 1 && hs[|gs|].id == newId && hs[|gs|].caption == gs[a].caption + " (split)"
              && (forall g :: 0 <= g < |gs| && g != a ==> hs[g] == gs[g]) && hs[a] == gs[a].(files := hs[a].files)
              && (forall f :: f in hs[|gs|].files <==> f in gs[a].files && IsChosen(f, keys))
              && (forall f :: f in hs[a].files <==> f in gs[a].files && !IsChosen(f, keys))
  {
    hide FindGroup, Chosen;
    var a := FindGroup(gs, id);
    if a < |gs| {
      assert IsGroup(gs, a, id);
      ChosenIs(gs[a].files, keys, true);
      ChosenIs(gs[a].files, keys, false);
      var moving := Chosen(gs[a].files, keys, true);
      if moving != [] { assert moving[0] in moving; }
    }
    forall x: nat | IsGroup(gs, x, id) ensures x == a { FoundAt(gs, x, id); }
  }

  // ---- Whole runs of edits ----

  predicate Legal(gs: seq<Group>, es: seq<Edit>)
    decreases |es|
  {
    es == [] || (Enabled(gs, es[0]) && Legal(Step(gs, es[0]), es[1..]))
  }

  function Run(gs: seq<Group>, es: seq<Edit>): seq<Group>
    decreases |es|
  {
    if es == [] then gs else Run(Step(gs, es[0]), es[1..])
  }

  lemma StepConserves(gs: seq<Group>, e: Edit)
    requires IdsDiffer(gs) && Enabled(gs, e)
    ensures AllFiles(Step(gs, e)) == AllFiles(gs) && IdsDiffer(Step(gs, e))
  {
    hide AllFiles, MoveFile, MergeGroups, SplitGroup, ReorderGroups;
    if Edited(gs, e).Some? {
      match e {
        case Move(fromId, toId, key) =>
          MoveConserves(gs, fromId, toId, key);
          IdsDistinct(gs);
          IdsDistinct(Step(gs, e));
        case Merge(sourceId, targetId) => MergeConserves(gs, sourceId, targetId);
        case SplitOff(id, keys, newId) => SplitConserves(gs, id, keys, newId);
        case Reorder(ids) => ReorderConserves(gs, ids);
      }
    }
  }

  /** No run of edits loses or doubles a file, accepted or refused as they may be. */
  lemma {:induction false} EditsConserve(gs: seq<Group>, es: seq<Edit>)
    requires IdsDiffer(gs) && Legal(gs, es)
    ensures AllFiles(Run(gs, es)) == AllFiles(gs) && IdsDiffer(Run(gs, es))
    decreases |es|
  {
    if es != [] {
      hide AllFiles, Step, IdsDiffer;
      StepConserves(gs, es[0]);
      EditsConserve(Step(gs, es[0]), es[1..]);
    }
  }

  /** A list is accepted exactly when its length and its names are right, repeated or not. */
  lemma ReorderAcceptedIff(gs: seq<Group>, ids: seq<nat>)
    ensures ReorderGroups(gs, ids).Some? <==> |ids| == |gs| && forall id <- ids :: id in Ids(gs)
  {
    hide FindGroup, Picked;
    PickedAll(gs, ids);
    forall k | 0 <= k < |ids| ensures FindGroup(gs, ids[k]) < |gs| <==> ids[k] in Ids(gs) { FoundIff(gs, ids[k]); }
    assert (forall id <- ids :: id in Ids(gs)) <==> forall k :: 0 <= k < |ids| ==> ids[k] in Ids(gs);
  }

  /** Naming the first of two groups twice is accepted, and the files of the second are gone. */
  lemma SecondGroupIsLost(a: Group, b: Group)
    requires a.id != b.id
    ensures ReorderGroups([a, b], [a.id, a.id]) == Some([a, a])
    ensures AllFiles([a, a]) == multiset(a.files) + multiset(a.files)
  {
    var gs, ids := [a, b], [a.id, a.id];
    assert ids[1..] == [a.id] && [a.id][1..] == [];
    assert FindGroup(gs, a.id) == 0;
    assert Picked(gs, []) == [];
    assert Picked(gs, [a.id]) == [a];
    assert Picked(gs, ids) == [a, a];
    assert [a, a][1..] == [a] && [a][1..] == [];
    assert AllFiles([a]) == multiset(a.files);
  }

  /** A list that names a group twice is accepted too, if its length and its names are right: then a group is lost. */
  lemma RepeatedReorderLoses(gs: seq<Group>, ids: seq<nat>)
    requires IdsDiffer(gs) && ReorderGroups(gs, ids).Some?
    ensures multiset(ReorderGroups(gs, ids).value) == multiset(gs) <==> Distinct(ids)
  {
    var hs := ReorderGroups(gs, ids).value;
    PickedAll(gs, ids);
    hide Picked, FindGroup;
    if Distinct(ids) {
      ReorderConserves(gs, ids);
    } else if multiset(hs) == multiset(gs) {
      var a, b :| 0 <= a < b < |ids| && ids[a] == ids[b];
      assert hs[a] == hs[b];
      TwiceInSeq(hs, a, b);
      DistinctCounts(gs);
    }
  }

  lemma TwiceInSeq<T>(s: seq<T>, a: nat, b: nat)
    requires a < b < |s| && s[a] == s[b]
    ensures multiset(s)[s[a]] >= 2
  {
    assert s == s[..a] + [s[a]] + s[a + 1..b] + [s[b]] + s[b + 1..];
  }
}
