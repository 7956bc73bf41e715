/**
 Protocol names: what a display name is reduced to, and the renaming that keeps the names of a manifest
 apart even when letter case is ignored.
 */
module ProtocolNames {
  import opened Text
  import opened Counting

  const MAX_LENGTH: nat := 64

  datatype NameError = Empty | Controls | AbsolutePath | SensitivePath | PathLeak

  datatype Result<T> = Ok(value: T) | Error(why: NameError)

  // ---- Reducing one name ----

  predicate IsSafe(c: char) { IsLetter(c) || IsDigit(c) || c == '.' || c == '_' || c == '+' || c == '-' }

  predicate AllSafe(s: string) { forall k :: 0 <= k < |s| ==> IsSafe(s[k]) }

  predicate IsAbsolute(s: string) {
    || (|s| >= 3 && IsLetter(s[0]) && s[1] == ':' && (s[2] == '\\' || s[2] == '/'))
    || StartsWith(s, "/") || StartsWith(s, "\\\\")
  }

  predicate IsSensitive(s: string) {
    var t := LowerAll(s);
    Contains(t, "user\\") || Contains(t, "users\\") || Contains(t, "home/") || Contains(t, "storagekey") || Contains(t, "uploads/")
  }

  /** The position of the last `c` in `s`, or `|s|` when there is none. */
  function LastIndexOf(s: string, c: char): (i: nat)
    ensures i <= |s|
    ensures i < |s| ==> s[i] == c && forall k :: i < k < |s| ==> s[k] != c
    ensures i == |s| ==> c !in s
  {
    if s == "" then 0
    else if s[|s| - 1] == c then |s| - 1
    else var i := LastIndexOf(s[..|s| - 1], c); if i == |s| - 1 then |s| else i
  }

  function DropTrailing(s: string, c: char): (r: string)
    ensures r == "" || r[|r| - 1] != c
  {
    if s != "" && s[|s| - 1] == c then DropTrailing(s[..|s| - 1], c) else s
  }

  /** The last segment that is not empty. */
  function BaseName(s: string): (r: string)
    ensures r != "" && '/' !in r
  {
    var t := DropTrailing(s, '/');
    var i := LastIndexOf(t, '/');
    if t == "" then "file" else if i == |t| then t else t[i + 1..]
  }

  /** Each run of other characters becomes one underscore. */
  function Collapse(s: string, inRun: bool): (r: string)
    ensures AllSafe(r) && (s != "" && !inRun ==> r != "")
  {
    if s == "" then ""
    else if IsSafe(s[0]) then [s[0]] + Collapse(s[1..], false)
    else (if inRun then "" else "_") + Collapse(s[1..], true)
  }

  function ReservedWords(): seq<string> { ["con", "prn", "aux", "nul"] }

  /** A device name of old, alone or before a dot. */
  predicate IsReserved(s: string) {
    var t := LowerAll(s);
    || (|t| >= 3 && t[..3] in ReservedWords() && (|t| == 3 || t[3] == '.'))
    || (|t| >= 4 && t[..3] in ["com", "lpt"] && '1' <= t[3] <= '9' && (|t| == 4 || t[4] == '.'))
  }

  function AtLeastOne(n: int): nat { if n < 1 then 1 else n }

  /** Cut to the maximum, keeping the extension and a short digest of the whole. */
  function Shorten(s: string, hash: string -> string): string {
    if |s| <= MAX_LENGTH then s
    else
      var ext := s[LastIndexOf(s, '.')..];
      Take(Take(s, AtLeastOne(MAX_LENGTH - |ext| - 8)) + "_" + hash(s) + ext, MAX_LENGTH)
  }

  datatype Sanitized = Sanitized(name: string, display: string)

  function Neutral(base: string): string {
    var safe := Collapse(base, false);
    var kept := if safe == "" || safe == "." || safe == ".." then "file" else safe;
    if IsReserved(kept) then "f_" + kept else kept
  }

  function Sanitize(raw: Option<string>, hash: string -> string): Result<Sanitized> {
    if raw.None? then Error(Empty)
    else
      var value := raw.value;
      if exists k :: 0 <= k < |value| && IsControl(value[k]) then Error(Controls)
      else if IsAbsolute(value) then Error(AbsolutePath)
      else if IsSensitive(value) then Error(SensitivePath)
      else var base := BaseName(ForwardSlashes(value)); Ok(Sanitized(Shorten(Neutral(base), hash), base))
  }

  /** Six safe characters stand for the digest. */
  ghost predicate IsDigest(hash: string -> string) { forall s :: |hash(s)| == 6 && AllSafe(hash(s)) }

  /** A name that can go on the wire: short, of safe characters only, and not a directory or a device. */
  ghost predicate IsProtocolName(s: string) {
    1 <= |s| <= MAX_LENGTH && AllSafe(s) && s != "." && s != ".." && !IsReserved(s)
  }

  lemma NeutralIsSafe(base: string)
    requires base != ""
    ensures var s := Neutral(base); s != "" && AllSafe(s) && s != "." && s != ".." && !IsReserved(s)
  {
    var safe := Collapse(base, false);
    var kept := if safe == "" || safe == "." || safe == ".." then "file" else safe;
    assert AllSafe("file") && LowerAll("file")[..3] == "fil";
    if IsReserved(kept) {
      var t := LowerAll("f_" + kept);
      assert t[0] == 'f' && t[..3][0] == 'f';
    }
  }

  /** Only the first five characters decide whether a name is reserved. */
  lemma ShortenIsSafe(s: string, hash: string -> string)
    requires IsDigest(hash) && s != "" && AllSafe(s) && s != "." && s != ".." && !IsReserved(s)
    ensures IsProtocolName(Shorten(s, hash))
  {
    hide IsReserved, LastIndexOf;
    if |s| > MAX_LENGTH {
      var ext := s[LastIndexOf(s, '.')..];
      var n := AtLeastOne(MAX_LENGTH - |ext| - 8);
      CutIsSafe(s, n, hash(s), ext);
      NotReserved(s, Take(s, n), Shorten(s, hash));
    }
  }

  lemma CutIsSafe(s: string, n: nat, digest: string, ext: string)
    requires 1 <= n <= MAX_LENGTH - 1 && |s| > MAX_LENGTH && AllSafe(s) && AllSafe(digest) && AllSafe(ext)
    ensures var (head, r) := (Take(s, n), Take(Take(s, n) + "_" + digest + ext, MAX_LENGTH));
            && head <= s && 1 <= |head| < |r| <= MAX_LENGTH && r[..|head|] == head && r[|head|] == '_' && AllSafe(r)
  {
    var head := s[..n];
    var whole := head + "_" + digest + ext;
    assert whole[|head|] == '_' && whole[..|head|] == head;
  }

  lemma NotReserved(s: string, head: string, r: string)
    requires !IsReserved(s) && head <= s && 1 <= |head| < |r| && r[..|head|] == head && r[|head|] == '_'
    ensures !IsReserved(r)
  {
    var t, u := LowerAll(s), LowerAll(r);
    assert forall k :: 0 <= k < |head| ==> u[k] == t[k];
    if |head| >= 3 { assert u[..3] == t[..3]; }
    if |head| == 1 && |u| >= 3 { assert u[..3][1] == '_'; }
    if |head| == 2 && |u| >= 3 { assert u[..3][2] == '_'; }
  }

  /** Whatever the display name, what is accepted of it is a protocol name. */
  lemma SanitizedIsProtocolName(raw: Option<string>, hash: string -> string)
    requires IsDigest(hash)
    ensures Sanitize(raw, hash).Ok? ==> IsProtocolName(Sanitize(raw, hash).value.name)
  {
    hide IsProtocolName, Shorten, Neutral, IsAbsolute, IsSensitive, BaseName, IsDigest, IsReserved, AllSafe, ForwardSlashes;
    if Sanitize(raw, hash).Ok? {
      var base := BaseName(ForwardSlashes(raw.value));
      NeutralIsSafe(base);
      ShortenIsSafe(Neutral(base), hash);
    }
  }

  // ---- Renaming ----

  function Stem(s: string): string { s[..LastIndexOf(s, '.')] }

  function Extension(s: string): string { s[LastIndexOf(s, '.')..] }

  /** The names tried for a file, in order. */
  function Candidate(root: string, s: string, n: nat): string {
    root + "/" + if n == 0 then s else Stem(s) + "_" + Dec(n) + Extension(s)
  }

  lemma LowerConcat(a: string, b: string)
    ensures LowerAll(a + b) == LowerAll(a) + LowerAll(b)
  {
  }

  lemma LowerDec(n: nat)
    ensures LowerAll(Dec(n)) == Dec(n)
  {
  }

  lemma CandidateLowered(root: string, s: string, n: nat)
    requires n > 0
    ensures LowerAll(Candidate(root, s, n)) == LowerAll(root + "/" + Stem(s) + "_") + Dec(n) + LowerAll(Extension(s))
  {
    var head := root + "/" + Stem(s) + "_";
    assert Candidate(root, s, n) == head + Dec(n) + Extension(s);
    LowerConcat(head + Dec(n), Extension(s));
    LowerConcat(head, Dec(n));
    LowerDec(n);
  }

  /** No two candidates agree, even ignoring case. */
  lemma CandidatesDiffer(root: string, s: string, m: nat, n: nat)
    requires m < n
    ensures LowerAll(Candidate(root, s, m)) != LowerAll(Candidate(root, s, n))
  {
    CandidateLowered(root, s, n);
    if m == 0 {
      assert s == Stem(s) + Extension(s);
    } else {
      CandidateLowered(root, s, m);
      var head, tail := LowerAll(root + "/" + Stem(s) + "_"), LowerAll(Extension(s));
      if head + Dec(m) + tail == head + Dec(n) + tail {
        SameMiddle(head, Dec(m), Dec(n), tail);
        DecInjective(m, n);
      }
    }
  }

  lemma SameMiddle(head: string, a: string, b: string, tail: string)
    requires head + a + tail == head + b + tail
    ensures a == b
  {
    assert |a| == |b|;
    assert a == (head + a + tail)[|head|..|head| + |a|];
    assert b == (head + b + tail)[|head|..|head| + |b|];
  }

  function Tried(root: string, s: string, n: nat): (t: seq<string>)
    ensures |t| == n && forall k :: 0 <= k < n ==> t[k] == LowerAll(Candidate(root, s, k))
  {
    seq(n, k requires 0 <= k < n => LowerAll(Candidate(root, s, k)))
  }

  /** Pigeonhole: while every candidate so far is taken, there have been no more of them than names in use. */
  lemma TriesAreBounded(root: string, s: string, used: set<string>, n: nat)
    requires forall k :: 0 <= k < n ==> LowerAll(Candidate(root, s, k)) in used
    ensures n <= |used|
  {
    var t := Tried(root, s, n);
    forall a, b | 0 <= a < b < n ensures t[a] != t[b] { CandidatesDiffer(root, s, a, b); }
    DistinctSize(t);
    SubsetSize(Elements(t), used);
  }

  /** The first candidate, from the `n`-th on, that is not in use. */
  function FirstFree(root: string, s: string, used: set<string>, n: nat): (r: nat)
    requires forall k :: 0 <= k < n ==> LowerAll(Candidate(root, s, k)) in used
    ensures n <= r <= |used|
    ensures LowerAll(Candidate(root, s, r)) !in used
    ensures forall k :: 0 <= k < r ==> LowerAll(Candidate(root, s, k)) in used
    decreases |used| - n
  {
    TriesAreBounded(root, s, used, n);
    if LowerAll(Candidate(root, s, n)) in used then
      TriesAreBounded(root, s, used, n + 1);
      FirstFree(root, s, used, n + 1)
    else n
  }

  // ---- The manifest ----

  datatype File = File(id: string, name: Option<string>, bytes: nat)

  datatype Group = Group(id: string, caption: string, files: seq<File>)

  datatype Entry = Entry(id: string, name: string, bytes: nat, group: string)

  datatype Shown = Shown(id: string, display: string, name: string)

  datatype Listing = Listing(id: string, caption: string, names: seq<string>)

  datatype Build = Build(used: set<string>, files: seq<Entry>, shown: seq<Shown>, groups: seq<Listing>)

  function Root(k: nat): string { "g" + Dec(k + 1) }

  function GroupId(g: Group, k: nat): string { OrElse(g.id, Root(k)) }

  /** Adds one file under the first free name of its root. */
  function AddFile(b: Build, root: string, group: string, f: File, s: Sanitized): Build {
    var name := Candidate(root, s.name, FirstFree(root, s.name, b.used, 0));
    var id := OrElse(f.id, "f_" + Dec(|b.files| + 1));
    b.(used := b.used + {LowerAll(name)},
       files := b.files + [Entry(id, name, f.bytes, group)],
       shown := b.shown + [Shown(id, s.display, name)])
  }

  function AddFiles(b: Build, root: string, group: string, files: seq<File>, hash: string -> string): (r: Result<Build>)
    ensures r.Ok? ==> b.files <= r.value.files && |r.value.files| == |b.files| + |files| && r.value.groups == b.groups
    decreases |files|
  {
    if files == [] then Ok(b)
    else match Sanitize(files[0].name, hash)
      case Error(e) => Error(e)
      case Ok(s) => AddFiles(AddFile(b, root, group, files[0], s), root, group, files[1..], hash)
  }

  function NamesFrom(files: seq<Entry>, n: nat): (r: seq<string>)
    requires n <= |files|
    ensures |r| == |files| - n && forall k :: 0 <= k < |r| ==> r[k] == files[n + k].name
  {
    seq(|files| - n, k requires 0 <= k < |files| - n => files[n + k].name)
  }

  function AddGroup(b: Build, g: Group, hash: string -> string): Result<Build> {
    var (root, id) := (Root(|b.groups|), GroupId(g, |b.groups|));
    match AddFiles(b, root, id, g.files, hash)
    case Error(e) => Error(e)
    case Ok(c) =>
      Ok(c.(groups := b.groups + [Listing(id, Take(OrElse(g.caption, root), 80), NamesFrom(c.files, |b.files|))]))
  }

  function AddGroups(b: Build, groups: seq<Group>, hash: string -> string): Result<Build>
    decreases |groups|
  {
    if groups == [] then Ok(b)
    else match AddGroup(b, groups[0], hash)
      case Error(e) => Error(e)
      case Ok(c) => AddGroups(c, groups[1..], hash)
  }

  function NoNames(): Build { Build({}, [], [], []) }

  /** The manifest of some groups; `leaks` is the scan of the serialized manifest for path fragments. */
  function Manifest(groups: seq<Group>, hash: string -> string, leaks: Build -> bool): Result<Build> {
    match AddGroups(NoNames(), groups, hash)
    case Error(e) => Error(e)
    case Ok(b) => if leaks(b) then Error(PathLeak) else Ok(b)
  }

  // ---- What a manifest promises ----

  ghost predicate Apart(b: Build) {
    && (forall i :: 0 <= i < |b.files| ==> LowerAll(b.files[i].name) in b.used)
    && forall i, j :: 0 <= i < j < |b.files| ==> LowerAll(b.files[i].name) != LowerAll(b.files[j].name)
  }

  /** A name on the wire is its group's root and a protocol name, or such a name with a number. */
  ghost predicate OnWire(name: string, root: string) {
    && StartsWith(name, root + "/") && |name| > |root| + 1
    && forall k :: |root| < k < |name| ==> IsSafe(name[k])
  }

  function Total(groups: seq<Group>): nat {
    if groups == [] then 0 else Total(groups[..|groups| - 1]) + |groups[|groups| - 1].files|
  }

  /** The entries from `n` on are these files', in order, each with its own byte count. */
  ghost predicate EntryFor(e: Entry, f: File, group: string, root: string) {
    e.bytes == f.bytes && e.group == group && OnWire(e.name, root)
  }

  ghost predicate Appended(entries: seq<Entry>, n: nat, files: seq<File>, group: string, root: string) {
    && n + |files| <= |entries|
    && forall j :: 0 <= j < |files| ==> EntryFor(entries[n + j], files[j], group, root)
  }

  ghost predicate NamesAt(names: seq<string>, entries: seq<Entry>, n: nat) {
    n + |names| <= |entries| && forall j :: 0 <= j < |names| ==> names[j] == entries[n + j].name
  }

  ghost predicate ListsOne(b: Build, groups: seq<Group>, k: nat)
    requires k < |groups| <= |b.groups|
  {
    var (n, g) := (Total(groups[..k]), b.groups[k]);
    && g.id == GroupId(groups[k], k)
    && |g.names| == |groups[k].files| && NamesAt(g.names, b.files, n)
    && Appended(b.files, n, groups[k].files, g.id, Root(k))
  }

  ghost predicate Lists(b: Build, groups: seq<Group>) {
    && |b.groups| == |groups| && |b.files| == Total(groups)
    && forall k :: 0 <= k < |groups| ==> ListsOne(b, groups, k)
  }

  lemma CandidateOnWire(root: string, s: string, n: nat)
    requires s != "" && AllSafe(s)
    ensures OnWire(Candidate(root, s, n), root)
  {
    var c := Candidate(root, s, n);
    assert c[..|root| + 1] == root + "/";
    var tail := if n == 0 then s else Stem(s) + "_" + Dec(n) + Extension(s);
    assert forall k :: 0 <= k < |tail| ==> IsSafe(tail[k]);
    assert forall k :: |root| < k < |c| ==> c[k] == tail[k - |root| - 1];
  }

  lemma AddFileKeepsApart(b: Build, root: string, group: string, f: File, s: Sanitized)
    requires Apart(b)
    ensures Apart(AddFile(b, root, group, f, s))
  {
  }

  lemma AppendedCons(entries: seq<Entry>, n: nat, files: seq<File>, group: string, root: string)
    requires files != [] && Appended(entries, n + 1, files[1..], group, root)
    requires EntryFor(entries[n], files[0], group, root)
    ensures Appended(entries, n, files, group, root)
  {
    hide EntryFor;
    forall j | 0 <= j < |files| ensures EntryFor(entries[n + j], files[j], group, root) {
      if j > 0 {
        assert EntryFor(entries[n + 1 + (j - 1)], files[1..][j - 1], group, root);
      }
    }
  }

  lemma {:induction false} AddFilesDescribes(b: Build, root: string, group: string, files: seq<File>, hash: string -> string)
    requires Apart(b) && IsDigest(hash) && AddFiles(b, root, group, files, hash).Ok?
    ensures var c := AddFiles(b, root, group, files, hash).value;
            Apart(c) && Appended(c.files, |b.files|, files, group, root)
    decreases |files|
  {
    hide Sanitize, OnWire, Candidate, Apart, IsReserved, IsDigest, FirstFree, Appended;
    if files != [] {
      var s := Sanitize(files[0].name, hash).value;
      var b1 := AddFile(b, root, group, files[0], s);
      SanitizedIsProtocolName(files[0].name, hash);
      CandidateOnWire(root, s.name, FirstFree(root, s.name, b.used, 0));
      AddFileKeepsApart(b, root, group, files[0], s);
      AddFilesDescribes(b1, root, group, files[1..], hash);
      var c := AddFiles(b1, root, group, files[1..], hash).value;
      assert c.files[|b.files|] == b1.files[|b.files|];
      AppendedCons(c.files, |b.files|, files, group, root);
    } else {
      AppendedNone(b.files, group, root);
    }
  }

  lemma AppendedNone(entries: seq<Entry>, group: string, root: string)
    ensures Appended(entries, |entries|, [], group, root)
  {
  }

  lemma AppendedGrows(entries: seq<Entry>, more: seq<Entry>, n: nat, files: seq<File>, names: seq<string>, group: string, root: string)
    requires Appended(entries, n, files, group, root) && NamesAt(names, entries, n) && entries <= more
    ensures Appended(more, n, files, group, root) && NamesAt(names, more, n)
  {
    hide OnWire;
  }

  lemma ListsOneGrows(b: Build, done: seq<Group>, c: Build, g: Group, k: nat)
    requires k < |done| && |done| == |b.groups| && ListsOne(b, done, k)
    requires b.files <= c.files && b.groups <= c.groups && |c.groups| == |done| + 1
    ensures ListsOne(c, done + [g], k)
  {
    hide Appended, NamesAt;
    assert (done + [g])[..k] == done[..k];
    AppendedGrows(b.files, c.files, Total(done[..k]), done[k].files, b.groups[k].names, b.groups[k].id, Root(k));
  }

  lemma AddGroupLists(b: Build, done: seq<Group>, g: Group, hash: string -> string)
    requires Apart(b) && Lists(b, done) && IsDigest(hash) && AddGroup(b, g, hash).Ok?
    ensures Apart(AddGroup(b, g, hash).value) && Lists(AddGroup(b, g, hash).value, done + [g])
  {
    hide AddFiles, Appended, IsDigest, OnWire;
    var c, all := AddGroup(b, g, hash).value, done + [g];
    AddFilesDescribes(b, Root(|b.groups|), GroupId(g, |b.groups|), g.files, hash);
    assert all[..|done|] == done;
    forall k | 0 <= k < |done| ensures ListsOne(c, all, k) {
      ListsOneGrows(b, done, c, g, k);
    }
  }

  lemma {:induction false} AddGroupsLists(b: Build, done: seq<Group>, rest: seq<Group>, hash: string -> string)
    requires Apart(b) && Lists(b, done) && IsDigest(hash) && AddGroups(b, rest, hash).Ok?
    ensures var c := AddGroups(b, rest, hash).value; Apart(c) && Lists(c, done + rest)
    decreases |rest|
  {
    hide Apart, Lists, IsDigest, AddGroup;
    if rest == [] {
      assert done + rest == done;
    } else {
      AddGroupLists(b, done, rest[0], hash);
      AddGroupsLists(AddGroup(b, rest[0], hash).value, done + [rest[0]], rest[1..], hash);
      assert done + [rest[0]] + rest[1..] == done + rest;
    }
  }

  /**
   Every manifest lists each group's own files in order with their own byte counts, under names that differ
   pairwise, within and across groups, even when case is ignored.
   */
  lemma ManifestLists(groups: seq<Group>, hash: string -> string, leaks: Build -> bool)
    requires IsDigest(hash) && Manifest(groups, hash, leaks).Ok?
    ensures var b := Manifest(groups, hash, leaks).value;
            && Lists(b, groups)
            && forall i, j :: 0 <= i < j < |b.files| ==> LowerAll(b.files[i].name) != LowerAll(b.files[j].name)
  {
    AddGroupsLists(NoNames(), [], groups, hash);
    assert [] + groups == groups;
    hide Lists, IsDigest;
  }

  /** Only an unusable display name or the leak scan can refuse a manifest; renaming always succeeds. */
  lemma {:induction false} FilesRefused(b: Build, root: string, group: string, files: seq<File>, hash: string -> string)
    ensures AddFiles(b, root, group, files, hash).Ok? <==> forall j :: 0 <= j < |files| ==> Sanitize(files[j].name, hash).Ok?
    decreases |files|
  {
    hide Sanitize;
    if files != [] && Sanitize(files[0].name, hash).Ok? {
      FilesRefused(AddFile(b, root, group, files[0], Sanitize(files[0].name, hash).value), root, group, files[1..], hash);
    }
  }

  // ---- What becomes of a display name ----

  /** A separator of either kind. */
  predicate IsSeparator(c: char) { c == '/' || c == '\\' }

  predicate Separators(s: string) { forall k :: 0 <= k < |s| ==> IsSeparator(s[k]) }

  predicate OnePiece(s: string) { s != "" && forall k :: 0 <= k < |s| ==> !IsSeparator(s[k]) }

  /** `base` is the last piece of the path, or "file" where there is none. */
  ghost predicate IsLastPiece(path: string, base: string) {
    if Separators(path) then base == "file"
    else OnePiece(base) && exists a, b :: path == a + base + b && Separators(b) && (a == "" || IsSeparator(a[|a| - 1]))
  }

  lemma {:induction false} DropTrailingIs(s: string) returns (b: string)
    ensures s == DropTrailing(s, '/') + b && forall k :: 0 <= k < |b| ==> b[k] == '/'
  {
    b := "";
    if s != "" && s[|s| - 1] == '/' {
      b := DropTrailingIs(s[..|s| - 1]);
      b := b + "/";
    }
  }

  lemma BaseNameIs(s: string) returns (start: nat, end: nat)
    ensures start <= end <= |s| && forall k :: end <= k < |s| ==> s[k] == '/'
    ensures end == 0 ==> BaseName(s) == "file"
    ensures end > 0 ==> start < end && BaseName(s) == s[start..end] && (start > 0 ==> s[start - 1] == '/')
    ensures end > 0 ==> forall k :: start <= k < end ==> s[k] != '/'
  {
    hide DropTrailing, LastIndexOf;
    var t := DropTrailing(s, '/');
    var b := DropTrailingIs(s);
    start, end := 0, |t|;
    assert forall k :: end <= k < |s| ==> s[k] == b[k - end];
    assert t == s[..end];
    if t != "" {
      start := LastOf(t);
      assert BaseName(s) == t[start..] == s[start..end];
    }
  }

  lemma LastOf(t: string) returns (start: nat)
    requires t != "" && t[|t| - 1] != '/'
    ensures start < |t| && start == if LastIndexOf(t, '/') == |t| then 0 else LastIndexOf(t, '/') + 1
    ensures (start > 0 ==> t[start - 1] == '/') && forall k :: start <= k < |t| ==> t[k] != '/'
  {
    hide LastIndexOf;
    start := if LastIndexOf(t, '/') == |t| then 0 else LastIndexOf(t, '/') + 1;
  }

  lemma DisplayIsLastPiece(value: string)
    ensures IsLastPiece(value, BaseName(ForwardSlashes(value)))
  {
    hide BaseName;
    var s := ForwardSlashes(value);
    var start, end := BaseNameIs(s);
    assert forall k :: 0 <= k < |value| ==> (IsSeparator(value[k]) <==> s[k] == '/') && (s[k] != '/' ==> s[k] == value[k]);
    if end > 0 {
      assert value[start..end] == s[start..end];
      LastPieceAt(value, start, end);
    }
  }

  lemma LastPieceAt(value: string, start: nat, end: nat)
    requires start < end <= |value| && (start > 0 ==> IsSeparator(value[start - 1]))
    requires forall k :: start <= k < end ==> !IsSeparator(value[k])
    requires forall k :: end <= k < |value| ==> IsSeparator(value[k])
    ensures IsLastPiece(value, value[start..end])
  {
    hide IsSeparator, Separators, OnePiece;
    var a, base, b := value[..start], value[start..end], value[end..];
    PieceParts(value, start, end);
    assert value == a + base + b;
  }

  lemma PieceParts(value: string, start: nat, end: nat)
    requires start < end <= |value|
    requires forall k :: start <= k < end ==> !IsSeparator(value[k])
    requires forall k :: end <= k < |value| ==> IsSeparator(value[k])
    ensures Separators(value[end..]) && OnePiece(value[start..end]) && !Separators(value)
  {
    hide IsSeparator;
    assert !IsSeparator(value[start]);
  }

  /** A run of other characters becomes one underscore; safe characters stay. */
  lemma {:induction false} CollapseSafe(a: string, rest: string, inRun: bool)
    requires AllSafe(a) && a != ""
    ensures Collapse(a + rest, inRun) == a + Collapse(rest, false)
  {
    assert (a + rest)[1..] == a[1..] + rest;
    if |a| == 1 {
      assert a[1..] + rest == rest && a == [a[0]];
    } else {
      CollapseSafe(a[1..], rest, false);
      assert [a[0]] + (a[1..] + Collapse(rest, false)) == a + Collapse(rest, false);
    }
  }

  lemma {:induction false} CollapseRun(a: string, rest: string, inRun: bool)
    requires a != "" && forall k :: 0 <= k < |a| ==> !IsSafe(a[k])
    ensures Collapse(a + rest, inRun) == (if inRun then "" else "_") + Collapse(rest, true)
  {
    assert (a + rest)[1..] == a[1..] + rest;
    if |a| == 1 {
      assert a[1..] + rest == rest;
    } else {
      CollapseRun(a[1..], rest, true);
    }
  }

  /** Names of devices, which no file can have. */
  function Devices(): seq<string> {
    ["con", "prn", "aux", "nul", "com1", "com2", "com3", "com4", "com5", "com6", "com7", "com8", "com9",
     "lpt1", "lpt2", "lpt3", "lpt4", "lpt5", "lpt6", "lpt7", "lpt8", "lpt9"]
  }

  predicate NamesDevice(t: string, w: string) { StartsWith(t, w) && (|t| == |w| || t[|w|] == '.') }

  lemma IsReservedIff(s: string)
    ensures IsReserved(s) <==> exists k :: 0 <= k < |Devices()| && NamesDevice(LowerAll(s), Devices()[k])
  {
    var t := LowerAll(s);
    if IsReserved(s) {
      if |t| >= 3 && t[..3] in ReservedWords() && (|t| == 3 || t[3] == '.') {
        var k :| 0 <= k < 4 && ReservedWords()[k] == t[..3];
        assert Devices()[k] == t[..3];
        assert NamesDevice(t, Devices()[k]);
      } else {
        var d := t[3] as int - '1' as int;
        var k := (if t[..3] == "com" then 4 else 13) + d;
        DeviceDigits(k);
        assert t[..4] == t[..3] + [t[3]];
        assert Devices()[k] == t[..4];
        assert NamesDevice(t, Devices()[k]);
      }
    }
    if k :| 0 <= k < |Devices()| && NamesDevice(t, Devices()[k]) {
      DeviceDigits(k);
      if k >= 4 { assert t[..4] == Devices()[k] && t[..3] == t[..4][..3] && t[3] == t[..4][3]; }
    }
  }

  lemma DeviceDigits(k: nat)
    requires k < |Devices()|
    ensures k < 4 ==> Devices()[k] == ReservedWords()[k] && |Devices()[k]| == 3
    ensures k >= 4 ==> Devices()[k] == (if k < 13 then "com" else "lpt") + [('1' as int + (k - 4) % 9) as char]
  {
  }

  /** Directory names and device names are no file names. */
  lemma NeutralIs(base: string)
    ensures base == "" || base == "." || base == ".." ==> Neutral(base) == "file"
    ensures AllSafe(base) && base != "" && base != "." && base != ".." ==> Neutral(base) == if IsReserved(base) then "f_" + base else base
  {
    hide IsReserved;
    if AllSafe(base) && base != "" {
      CollapseSafe(base, "", false);
      assert base + "" == base && Collapse("", false) == "";
    }
    NotADevice();
  }

  lemma NotADevice()
    ensures !IsReserved("file")
  {
    var t := LowerAll("file");
    assert t[..3][0] == 'f';
  }

  /** A name that can go on the wire as it is goes as it is. */
  lemma SafeNameKept(value: string, hash: string -> string)
    requires IsProtocolName(value) && !IsSensitive(value)
    ensures Sanitize(Some(value), hash) == Ok(Sanitized(value, value))
  {
    hide IsSensitive, IsReserved, LastIndexOf;
    CollapseSafe(value, "", false);
    assert value + "" == value && Collapse("", false) == "";
    assert forall k :: 0 <= k < |value| ==> !IsControl(value[k]) && value[k] != '/' && value[k] != '\\' && value[k] != ':';
    assert ForwardSlashes(value) == value;
    assert DropTrailing(value, '/') == value;
    assert LastIndexOf(value, '/') == |value|;
  }

  /** Why a display name is refused: the first of these that holds; anything else is accepted, shown as its last piece. */
  lemma SanitizeIff(raw: Option<string>, hash: string -> string)
    ensures var r := Sanitize(raw, hash);
            && (r == Error(Empty) <==> raw == None)
            && (raw.Some? ==>
                  var v := raw.value;
                  var controls := exists k :: 0 <= k < |v| && (v[k] < ' ' || v[k] == 127 as char);
                  var absolute := StartsWith(v, "/") || StartsWith(v, "\\\\") || (|v| >= 3 && IsLetter(v[0]) && v[1] == ':' && IsSeparator(v[2]));
                  var sensitive := exists w :: w in ["user\\", "users\\", "home/", "storagekey", "uploads/"] && Contains(LowerAll(v), w);
                  && (r == Error(Controls) <==> controls)
                  && (r == Error(AbsolutePath) <==> !controls && absolute)
                  && (r == Error(SensitivePath) <==> !controls && !absolute && sensitive)
                  && (r.Ok? <==> !controls && !absolute && !sensitive)
                  && (r.Ok? ==> IsLastPiece(v, r.value.display)
                                && r.value.name == Shorten(Neutral(r.value.display), hash)))
  {
    hide BaseName, Shorten, Neutral, Contains, IsLastPiece, ForwardSlashes;
    if raw.Some? {
      DisplayIsLastPiece(raw.value);
      var t := LowerAll(raw.value);
      var words := ["user\\", "users\\", "home/", "storagekey", "uploads/"];
      assert forall w :: w in words ==> w == words[0] || w == words[1] || w == words[2] || w == words[3] || w == words[4];
    }
  }

  /** A long name keeps its beginning and its extension, unless that is itself too long, and carries a digest of the whole. */
  lemma ShortenIs(s: string, hash: string -> string)
    requires IsDigest(hash)
    ensures |s| <= 64 ==> Shorten(s, hash) == s
    ensures |s| > 64 ==>
              exists stem, ext, head :: CutsExtension(s, stem, ext) && head <= s &&
                if |ext| <= 55 then |head| == 56 - |ext| && Shorten(s, hash) == head + "_" + hash(s) + ext
                else |head| == 1 && Shorten(s, hash) == head + "_" + hash(s) + ext[..56]
  {
    if |s| > 64 {
      var stem, ext := Stem(s), Extension(s);
      CutsAtDot(s);
      var head := s[..AtLeastOne(MAX_LENGTH - |ext| - 8)];
      var whole := head + "_" + hash(s) + ext;
      assert Take(s, AtLeastOne(MAX_LENGTH - |ext| - 8)) == head && head <= s;
      hide LastIndexOf;
      if |ext| > 55 {
        assert whole[..64] == head + "_" + hash(s) + ext[..56];
      }
    }
  }

  /** The extension is the last dot and what follows it. */
  predicate CutsExtension(s: string, stem: string, ext: string) {
    s == stem + ext && if '.' in s then ext != "" && ext[0] == '.' && '.' !in ext[1..] else ext == ""
  }

  lemma CutsAtDot(s: string)
    ensures CutsExtension(s, Stem(s), Extension(s))
  {
    var i := LastIndexOf(s, '.');
    if i < |s| {
      assert forall k :: 0 <= k < |Extension(s)[1..]| ==> Extension(s)[1..][k] == s[i + 1 + k];
    }
  }

  /** `c` is the name in its group's folder, or that name with a number before the extension. */
  ghost predicate IsNumbered(root: string, s: string, n: nat, c: string) {
    exists stem, ext :: CutsExtension(s, stem, ext) && c == root + "/" + stem + (if n == 0 then "" else "_" + Dec(n)) + ext
  }

  lemma CandidateIs(root: string, s: string, n: nat)
    ensures IsNumbered(root, s, n, Candidate(root, s, n))
    ensures forall c :: IsNumbered(root, s, n, c) ==> c == Candidate(root, s, n)
  {
    CutsAtDot(s);
    hide LastIndexOf, Dec;
    var mark := if n == 0 then "" else "_" + Dec(n);
    assert Candidate(root, s, n) == root + "/" + Stem(s) + mark + Extension(s);
    forall stem, ext | CutsExtension(s, stem, ext) ensures stem == Stem(s) && ext == Extension(s) {
      OneCut(s, stem, ext, Stem(s), Extension(s));
    }
  }

  lemma OneCut(s: string, a: string, x: string, b: string, y: string)
    requires CutsExtension(s, a, x) && CutsExtension(s, b, y)
    ensures a == b && x == y
  {
    if '.' in s {
      assert s[|a|] == '.' && forall k :: |a| < k < |s| ==> s[k] == x[1..][k - |a| - 1];
      assert s[|b|] == '.' && forall k :: |b| < k < |s| ==> s[k] == y[1..][k - |b| - 1];
    }
    assert a == s[..|a|] && b == s[..|b|];
  }

  // ---- Which file got which name ----

  predicate TakenBefore(entries: seq<Entry>, i: nat, name: string)
    requires i <= |entries|
  {
    exists k :: 0 <= k < i && LowerAll(entries[k].name) == LowerAll(name)
  }

  /** The entry of a file: its own id or one made up from its place, and the first of its names no earlier entry has. */
  ghost predicate EntryOf(b: Build, i: nat, f: File, group: string, root: string, s: Sanitized) {
    && i < |b.files| == |b.shown|
    && var e := b.files[i];
       && e.bytes == f.bytes && e.group == group && e.id == (if f.id != "" then f.id else "f_" + Dec(i + 1))
       && b.shown[i] == Shown(e.id, s.display, e.name)
       && !TakenBefore(b.files, i, e.name)
       && exists n: nat :: IsNumbered(root, s.name, n, e.name) &&
            forall m: nat, c :: m < n && IsNumbered(root, s.name, m, c) ==> TakenBefore(b.files, i, c)
  }

  /** The names in use are those of the entries. */
  ghost predicate UsedAre(b: Build) {
    && |b.shown| == |b.files|
    && forall u :: u in b.used <==> exists i :: 0 <= i < |b.files| && LowerAll(b.files[i].name) == u
  }

  lemma AddFileIs(b: Build, root: string, group: string, f: File, s: Sanitized)
    requires UsedAre(b)
    ensures var c := AddFile(b, root, group, f, s);
            && UsedAre(c) && EntryOf(c, |b.files|, f, group, root, s)
            && b.files <= c.files && b.shown <= c.shown && |c.files| == |b.files| + 1
  {
    hide Candidate, IsNumbered, Dec, FirstFree, LowerAll;
    var n := FirstFree(root, s.name, b.used, 0);
    var c := AddFile(b, root, group, f, s);
    var name := Candidate(root, s.name, n);
    CandidateIs(root, s.name, n);
    forall m, x | 0 <= m < n && IsNumbered(root, s.name, m, x) ensures TakenBefore(c.files, |b.files|, x) {
      CandidateIs(root, s.name, m);
      assert LowerAll(x) in b.used;
      var i :| 0 <= i < |b.files| && LowerAll(b.files[i].name) == LowerAll(x);
      assert c.files[i] == b.files[i];
    }
    UsedGrows(b, c, name);
  }

  lemma UsedGrows(b: Build, c: Build, name: string)
    requires UsedAre(b) && |c.shown| == |c.files| == |b.files| + 1 && c.used == b.used + {LowerAll(name)}
    requires b.files <= c.files && c.files[|b.files|].name == name
    ensures UsedAre(c)
  {
    forall u | u in c.used ensures exists i :: 0 <= i < |c.files| && LowerAll(c.files[i].name) == u {
      if u in b.used {
        var i :| 0 <= i < |b.files| && LowerAll(b.files[i].name) == u;
        assert c.files[i] == b.files[i];
      } else {
        assert LowerAll(c.files[|b.files|].name) == u;
      }
    }
    forall i | 0 <= i < |c.files| ensures LowerAll(c.files[i].name) in c.used {
      if i < |b.files| { assert LowerAll(b.files[i].name) in b.used; }
    }
  }

  lemma EntryStays(b: Build, c: Build, i: nat, f: File, group: string, root: string, s: Sanitized)
    requires EntryOf(b, i, f, group, root, s) && b.files <= c.files && b.shown <= c.shown && |c.files| == |c.shown|
    ensures EntryOf(c, i, f, group, root, s)
  {
    hide IsNumbered, Dec;
    assert forall k :: 0 <= k < |b.files| ==> c.files[k] == b.files[k];
    assert forall x :: TakenBefore(c.files, i, x) <==> TakenBefore(b.files, i, x);
  }

  lemma {:induction false} AddFilesNames(b: Build, root: string, group: string, files: seq<File>, hash: string -> string, j: nat)
    requires UsedAre(b) && AddFiles(b, root, group, files, hash).Ok? && j < |files|
    ensures var c := AddFiles(b, root, group, files, hash).value;
            && Sanitize(files[j].name, hash).Ok?
            && EntryOf(c, |b.files| + j, files[j], group, root, Sanitize(files[j].name, hash).value)
    decreases |files|
  {
    hide Sanitize, EntryOf, UsedAre, FirstFree, Candidate, AddFile;
    var s := Sanitize(files[0].name, hash).value;
    var b1 := AddFile(b, root, group, files[0], s);
    AddFileIs(b, root, group, files[0], s);
    AddFilesGrows(b1, root, group, files[1..], hash);
    if j > 0 {
      AddFilesNames(b1, root, group, files[1..], hash, j - 1);
    } else {
      EntryStays(b1, AddFiles(b1, root, group, files[1..], hash).value, |b.files|, files[0], group, root, s);
    }
  }

  lemma {:induction false} AddFilesGrows(b: Build, root: string, group: string, files: seq<File>, hash: string -> string)
    requires UsedAre(b) && AddFiles(b, root, group, files, hash).Ok?
    ensures var c := AddFiles(b, root, group, files, hash).value;
            UsedAre(c) && b.files <= c.files && b.shown <= c.shown && |c.files| == |c.shown|
    decreases |files|
  {
    if files == [] {
    } else {
      hide Sanitize, FirstFree, Candidate;
      var s := Sanitize(files[0].name, hash).value;
      AddFileIs(b, root, group, files[0], s);
      AddFilesGrows(AddFile(b, root, group, files[0], s), root, group, files[1..], hash);
    }
  }

  /** The captions and ids of the groups, and where the files of each begin. */
  lemma {:induction false} AddGroupsNames(b: Build, groups: seq<Group>, hash: string -> string, k: nat, j: nat)
    requires UsedAre(b) && AddGroups(b, groups, hash).Ok? && k < |groups|
    ensures var (c, g, at) := (AddGroups(b, groups, hash).value, groups[k], |b.groups| + k);
            && at < |c.groups| && UsedAre(c) && b.files <= c.files && b.shown <= c.shown && b.groups <= c.groups
            && c.groups[at].id == GroupId(g, at) && c.groups[at].caption == Take(OrElse(g.caption, Root(at)), 80)
            && (j < |g.files| ==>
                  && Sanitize(g.files[j].name, hash).Ok?
                  && EntryOf(c, |b.files| + Total(groups[..k]) + j, g.files[j], GroupId(g, at), Root(at), Sanitize(g.files[j].name, hash).value))
    decreases |groups|
  {
    hide Sanitize, EntryOf, UsedAre, GroupId, Root, AddFiles;
    var g0, at0 := groups[0], |b.groups|;
    var c0 := AddGroup(b, g0, hash).value;
    AddFilesGrows(b, Root(at0), GroupId(g0, at0), g0.files, hash);
    SameNames(AddFiles(b, Root(at0), GroupId(g0, at0), g0.files, hash).value, c0);
    AddGroupsGrow(c0, groups[1..], hash);
    if k == 0 {
      assert groups[..0] == [];
      if j < |g0.files| {
        var s := Sanitize(g0.files[j].name, hash);
        AddFilesNames(b, Root(at0), GroupId(g0, at0), g0.files, hash, j);
        var i := |b.files| + j;
        SameEntry(AddFiles(b, Root(at0), GroupId(g0, at0), g0.files, hash).value, c0, i, g0.files[j], GroupId(g0, at0), Root(at0), s.value);
        EntryStays(c0, AddGroups(c0, groups[1..], hash).value, i, g0.files[j], GroupId(g0, at0), Root(at0), s.value);
      }
    } else {
      AddGroupsNames(c0, groups[1..], hash, k - 1, j);
      TotalFirst(groups[..k]);
      assert groups[..k][1..] == groups[1..][..k - 1];
    }
  }

  lemma SameNames(c: Build, c': Build)
    requires c'.used == c.used && c'.files == c.files && c'.shown == c.shown
    ensures UsedAre(c) <==> UsedAre(c')
  {
  }

  lemma SameEntry(c: Build, c': Build, i: nat, f: File, group: string, root: string, s: Sanitized)
    requires c'.files == c.files && c'.shown == c.shown && EntryOf(c, i, f, group, root, s)
    ensures EntryOf(c', i, f, group, root, s)
  {
    hide IsNumbered;
  }

  lemma {:induction false} AddGroupsGrow(b: Build, groups: seq<Group>, hash: string -> string)
    requires UsedAre(b) && AddGroups(b, groups, hash).Ok?
    ensures var c := AddGroups(b, groups, hash).value;
            UsedAre(c) && b.files <= c.files && b.shown <= c.shown && b.groups <= c.groups && |c.files| == |c.shown|
    decreases |groups|
  {
    if groups != [] {
      hide Sanitize, AddFiles;
      var g0, at0 := groups[0], |b.groups|;
      AddFilesGrows(b, Root(at0), GroupId(g0, at0), g0.files, hash);
      AddGroupsGrow(AddGroup(b, g0, hash).value, groups[1..], hash);
    }
  }

  lemma {:induction false} TotalFirst(groups: seq<Group>)
    requires groups != []
    ensures Total(groups) == |groups[0].files| + Total(groups[1..])
  {
    if |groups| > 1 {
      var front := groups[..|groups| - 1];
      TotalFirst(front);
      assert groups[1..][..|groups[1..]| - 1] == front[1..];
    } else {
      assert groups[..0] == [] && groups[1..] == [];
    }
  }

  lemma NoNamesUsed()
    ensures UsedAre(NoNames())
  {
  }

  /**
   In every manifest the `j`-th file of the `k`-th group has its own entry: its bytes, its group, its id, and of the
   names made from its display name the first that no earlier file has, case ignored; and the list of what is shown
   pairs that name with the display name. The group keeps its id and the first eighty characters of its caption.
   */
  lemma ManifestNames(groups: seq<Group>, hash: string -> string, leaks: Build -> bool, k: nat, j: nat)
    requires Manifest(groups, hash, leaks).Ok? && k < |groups| && j < |groups[k].files|
    ensures var (b, g, root) := (Manifest(groups, hash, leaks).value, groups[k], "g" + Dec(k + 1));
            var id := if g.id != "" then g.id else root;
            && k < |b.groups| && b.groups[k].id == id && b.groups[k].caption == Take(if g.caption != "" then g.caption else root, 80)
            && Sanitize(g.files[j].name, hash).Ok?
            && EntryOf(b, Total(groups[..k]) + j, g.files[j], id, root, Sanitize(g.files[j].name, hash).value)
  {
    hide Sanitize, EntryOf, Dec, AddGroups, UsedAre;
    NoNamesUsed();
    AddGroupsNames(NoNames(), groups, hash, k, j);
    assert 0 + Total(groups[..k]) + j == Total(groups[..k]) + j;
  }

  // ---- The two loops ----

  method ChooseName(root: string, s: string, used: set<string>) returns (name: string)
    ensures name == Candidate(root, s, FirstFree(root, s, used, 0))
    ensures LowerAll(name) !in used
  {
    name := root + "/" + s;
    var n: nat := 0;
    while LowerAll(name) in used
      invariant name == Candidate(root, s, n)
      invariant forall k :: 0 <= k < n ==> LowerAll(Candidate(root, s, k)) in used
      invariant FirstFree(root, s, used, n) == FirstFree(root, s, used, 0)
      decreases |used| - n
    {
      TriesAreBounded(root, s, used, n + 1);
      n := n + 1;
      name := root + "/" + (Stem(s) + "_" + Dec(n) + Extension(s));
    }
  }

  method BuildProtocolManifest(groups: seq<Group>, hash: string -> string, leaks: Build -> bool) returns (r: Result<Build>)
    ensures r == Manifest(groups, hash, leaks)
  {
    hide Sanitize, FirstFree, Candidate;
    var b := NoNames();
    for g := 0 to |groups|
      invariant AddGroups(b, groups[g..], hash) == AddGroups(NoNames(), groups, hash)
      invariant |b.groups| == g
    {
      var group, root := groups[g], Root(g);
      var id := OrElse(group.id, root);
      var start, c := |b.files|, b;
      for f := 0 to |group.files|
        invariant AddFiles(c, root, id, group.files[f..], hash) == AddFiles(b, root, id, group.files, hash)
        invariant b.files <= c.files && c.groups == b.groups
      {
        var file := group.files[f];
        assert group.files[f..][0] == file && group.files[f..][1..] == group.files[f + 1..];
        var sanitized := Sanitize(file.name, hash);
        if sanitized.Error? {
          assert groups[g..][0] == group;
          return Error(sanitized.why);
        }
        var name := ChooseName(root, sanitized.value.name, c.used);
        var fileId := OrElse(file.id, "f_" + Dec(|c.files| + 1));
        c := c.(used := c.used + {LowerAll(name)},
                files := c.files + [Entry(fileId, name, file.bytes, id)],
                shown := c.shown + [Shown(fileId, sanitized.value.display, name)]);
      }
      assert group.files[|group.files|..] == [];
      c := c.(groups := c.groups + [Listing(id, Take(OrElse(group.caption, root), 80), NamesFrom(c.files, start))]);
      assert AddGroup(b, group, hash) == Ok(c);
      assert groups[g..][0] == group && groups[g..][1..] == groups[g + 1..];
      b := c;
    }
    assert groups[|groups|..] == [];
    if leaks(b) {
      return Error(PathLeak);
    }
    return Ok(b);
  }
}
