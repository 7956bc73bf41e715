/**
 Intake of uploaded objects: entry paths made plain, size and depth caps, a bound on how far archives expand,
 and groups of files. What is accepted is accepted whole.
 */
module Intake {
  import opened Text
  import opened Buckets

  datatype Caps = Caps(maxExpandedBytes: nat, maxDepth: nat, maxRatio: nat, maxEntries: nat, rejectNestedArchives: bool)

  const MAX_PATH: nat := 720

  /** `binary`, `mismatched` and `undecoded` are what content inspection found. */
  datatype Member = Member(
    path: string,
    name: string,
    bytes: nat,
    hint: string,
    link: bool,
    mismatched: bool,
    binary: bool,
    undecoded: bool)

  datatype Upload = Flat(member: Member) | Archive(bytes: nat, members: seq<Member>)

  datatype Refusal =
    | EmptyPath | AbsolutePath | ControlChars | TraversalOrLink | PathTooLong | SymlinkOrLink | DepthExceeded
    | MimeMismatch | BinaryRejected | Utf16Unnormalized | ExpandedBytes | NestedArchive | BombRatio
    | TooManyEntries | PathCollision | InsufficientGroups | UnmappedFile

  datatype Result<T> = Ok(value: T) | Error(why: Refusal)

  // ---- Paths ----

  /** The pieces that name something: not empty and not the current directory. */
  function Plain(parts: seq<string>): (r: seq<string>)
    ensures forall p :: p in r <==> p in parts && p != "" && p != "."
  {
    if parts == [] then []
    else (if parts[0] == "" || parts[0] == "." then [] else [parts[0]]) + Plain(parts[1..])
  }

  predicate IsRisky(p: string) { p == ".." || p == ".lnk" || LowerAll(p) == "symlink" }

  datatype Normal = Normal(path: string, parts: seq<string>)

  function NormalizeEntryPath(raw: string): Result<Normal> {
    var s := ForwardSlashes(raw);
    if s == "" || s == "." then Error(EmptyPath)
    else if (|s| >= 2 && IsLetter(s[0]) && s[1] == ':') || s[0] == '/' || Contains(s, "://") then Error(AbsolutePath)
    else if exists k :: 0 <= k < |s| && IsControl(s[k]) then Error(ControlChars)
    else
      var parts := Plain(Split(s, '/'));
      if exists k :: 0 <= k < |parts| && IsRisky(parts[k]) then Error(TraversalOrLink)
      else if |Join(parts, '/')| > MAX_PATH then Error(PathTooLong)
      else Ok(Normal(Join(parts, '/'), parts))
  }

  /** A path whose segments all name something below where it starts. */
  ghost predicate IsPlainPath(path: string, depth: nat) {
    var segments := Split(path, '/');
    |segments| == depth && forall k :: 0 <= k < depth ==> segments[k] != "" && segments[k] != "." && segments[k] != ".."
  }

  predicate NamesNothing(parts: seq<string>) { forall k :: 0 <= k < |parts| ==> parts[k] == "" || parts[k] == "." }

  lemma {:induction false} PlainNone(all: seq<string>)
    ensures Plain(all) == [] <==> NamesNothing(all)
  {
    if all != [] {
      PlainNone(all[1..]);
      assert all == [all[0]] + all[1..];
    }
  }

  /** What is accepted is plain, except that a path of nothing but dots and slashes becomes the empty one. */
  lemma NormalizedIsPlain(raw: string)
    requires NormalizeEntryPath(raw).Ok?
    ensures var n := NormalizeEntryPath(raw).value;
            && (n.path == "" <==> n.parts == [])
            && (n.parts == [] <==> NamesNothing(Split(ForwardSlashes(raw), '/')))
            && (n.parts != [] ==> Split(n.path, '/') == n.parts && IsPlainPath(n.path, |n.parts|))
  {
    hide Plain, Split, Join, Contains, ForwardSlashes, IsRisky;
    var all := Split(ForwardSlashes(raw), '/');
    var parts := Plain(all);
    SplitClean(ForwardSlashes(raw), '/');
    PlainClean(all);
    NoRisk(parts);
    PlainNone(all);
    JoinNone();
    if parts != [] {
      SplitJoin(parts, '/');
      JoinSome(parts);
    }
  }

  lemma PlainClean(all: seq<string>)
    requires forall k :: 0 <= k < |all| ==> '/' !in all[k]
    ensures forall k :: 0 <= k < |Plain(all)| ==> '/' !in Plain(all)[k] && Plain(all)[k] != "" && Plain(all)[k] != "."
  {
    forall k | 0 <= k < |Plain(all)| ensures '/' !in Plain(all)[k] && Plain(all)[k] != "" && Plain(all)[k] != "." {
      assert Plain(all)[k] in Plain(all);
    }
    hide Plain;
  }

  lemma NoRisk(parts: seq<string>)
    requires !exists k :: 0 <= k < |parts| && IsRisky(parts[k])
    ensures forall k :: 0 <= k < |parts| ==> parts[k] != ".."
  {
    assert forall k :: 0 <= k < |parts| ==> !IsRisky(parts[k]);
  }

  lemma JoinNone()
    ensures Join([], '/') == ""
  {
  }

  lemma JoinSome(parts: seq<string>)
    requires parts != [] && parts[0] != ""
    ensures Join(parts, '/') != ""
  {
  }

  /** Such a path exists: `./` is accepted and names nothing. */
  lemma DotSlashIsAccepted()
    ensures NormalizeEntryPath("./") == Ok(Normal("", []))
  {
    var s := ForwardSlashes("./");
    assert s == "./";
    assert IndexOf(s, '/') == 1 && s[..1] == "." && s[2..] == "";
    assert Split("", '/') == [""];
    assert Split(s, '/') == [".", ""];
    assert Plain([""]) == [];
    assert [".", ""][1..] == [""];
    assert Plain([".", ""]) == [];
    assert !Contains(s, "://");
  }

  predicate IsArchiveName(name: string) {
    var t := LowerAll(name);
    EndsWith(t, ".zip") || EndsWith(t, ".tar") || EndsWith(t, ".tgz") || EndsWith(t, ".tar.gz") || EndsWith(t, ".rar")
    || EndsWith(t, ".7z")
  }

  // ---- Members ----

  /** Accepted files are numbered in order; the number stands for the drawn identifier. */
  datatype File = File(path: string, display: Option<string>, depth: nat, bytes: nat, key: Option<string>)

  datatype Taken = Taken(files: seq<File>, expanded: nat, compressed: nat)

  /** What files are grouped by: the caller's hint, else the first segment; a path of nothing has neither. */
  function KeyOf(m: Member, n: Normal): Option<string> {
    if m.hint != "" then Some(m.hint) else if n.parts == [] then None else Some(n.parts[0])
  }

  function FileOf(m: Member, n: Normal): File {
    File(n.path, if n.parts == [] then None else Some(n.parts[|n.parts| - 1]), |n.parts|, m.bytes, KeyOf(m, n))
  }

  function AcceptMember(t: Taken, m: Member, caps: Caps): Result<Taken> {
    if m.link then Error(SymlinkOrLink)
    else match NormalizeEntryPath(OrElse(m.path, m.name))
      case Error(e) => Error(e)
      case Ok(n) =>
        if |n.parts| > caps.maxDepth then Error(DepthExceeded)
        else if m.mismatched then Error(MimeMismatch)
        else if m.binary then Error(BinaryRejected)
        else if m.undecoded then Error(Utf16Unnormalized)
        else if t.expanded + m.bytes > caps.maxExpandedBytes then Error(ExpandedBytes)
        else if n.parts != [] && IsArchiveName(n.parts[|n.parts| - 1]) && caps.rejectNestedArchives then Error(NestedArchive)
        else Ok(t.(files := t.files + [FileOf(m, n)], expanded := t.expanded + m.bytes))
  }

  function AcceptMembers(t: Taken, ms: seq<Member>, caps: Caps): Result<Taken>
    decreases |ms|
  {
    if ms == [] then Ok(t)
    else match AcceptMember(t, ms[0], caps)
      case Error(e) => Error(e)
      case Ok(u) => AcceptMembers(u, ms[1..], caps)
  }

  predicate NamesArchive(m: Member) { IsArchiveName(OrElse(m.name, m.path)) }

  function AcceptUpload(t: Taken, o: Upload, caps: Caps): Result<Taken> {
    match o
    case Flat(m) => AcceptMember(t, m, caps)
    case Archive(bytes, ms) =>
      if caps.rejectNestedArchives && exists k :: 0 <= k < |ms| && NamesArchive(ms[k]) then Error(NestedArchive)
      else match AcceptMembers(t.(compressed := t.compressed + bytes), ms, caps)
        case Error(e) => Error(e)
        case Ok(u) =>
          if u.compressed > 0 && u.expanded > caps.maxRatio * u.compressed then Error(BombRatio) else Ok(u)
  }

  function AcceptUploads(t: Taken, os: seq<Upload>, caps: Caps): Result<Taken>
    decreases |os|
  {
    if os == [] then Ok(t)
    else match AcceptUpload(t, os[0], caps)
      case Error(e) => Error(e)
      case Ok(u) => AcceptUploads(u, os[1..], caps)
  }

  predicate PathsDistinct(files: seq<File>) { forall i, j :: 0 <= i < j < |files| ==> files[i].path != files[j].path }

  // ---- Groups ----

  /** A group of files, by what they are grouped by or what the caller calls it. */
  type Group = Bucket<Option<string>>

  function Keys(files: seq<File>): (keys: seq<Option<Option<string>>>)
    ensures |keys| == |files| && forall i :: 0 <= i < |files| ==> keys[i] == Some(files[i].key)
  {
    seq(|files|, i requires 0 <= i < |files| => Some(files[i].key))
  }

  /** Groups by key, in the order keys first appear. */
  function Derive(files: seq<File>): seq<Group> { Collect(Keys(files)) }

  /** How a caller refers to a file: by its identifier, else by a path or a display name. */
  datatype Ref = Ref(id: Option<nat>, name: string)

  function FindPath(files: seq<File>, path: string): (i: nat)
    ensures i <= |files|
    ensures i < |files| ==> files[i].path == path
  {
    if files == [] || files[0].path == path then 0 else 1 + FindPath(files[1..], path)
  }

  function FindDisplay(files: seq<File>, name: string): (i: nat)
    ensures i <= |files|
    ensures i < |files| ==> files[i].display == Some(name)
  {
    if files == [] || files[0].display == Some(name) then 0 else 1 + FindDisplay(files[1..], name)
  }

  function Resolve(files: seq<File>, r: Ref): Option<nat> {
    var (p, d) := (FindPath(files, r.name), FindDisplay(files, r.name));
    if r.id.Some? && r.id.value < |files| then r.id
    else if p < |files| then Some(p)
    else if d < |files| then Some(d)
    else None
  }

  function ResolveAll(files: seq<File>, refs: seq<Ref>): Result<seq<nat>>
    decreases |refs|
  {
    if refs == [] then Ok([])
    else match Resolve(files, refs[0])
      case None => Error(UnmappedFile)
      case Some(id) =>
        match ResolveAll(files, refs[1..])
        case Error(e) => Error(e)
        case Ok(ids) => Ok([id] + ids)
  }

  datatype NamedGroup = NamedGroup(caption: string, refs: seq<Ref>)

  function MapNamed(files: seq<File>, named: seq<NamedGroup>): Result<seq<Group>>
    decreases |named|
  {
    if named == [] then Ok([])
    else match ResolveAll(files, named[0].refs)
      case Error(e) => Error(e)
      case Ok(ids) =>
        match MapNamed(files, named[1..])
        case Error(e) => Error(e)
        case Ok(gs) => Ok([Bucket(Some(named[0].caption), ids)] + gs)
  }

  function MapSafeGroups(named: seq<NamedGroup>, files: seq<File>): Result<seq<Group>> {
    if named != [] then MapNamed(files, named)
    else if |Derive(files)| < 2 then Error(InsufficientGroups)
    else Ok(Derive(files))
  }

  datatype Manifest = Manifest(files: seq<File>, groups: seq<Group>, expanded: nat, compressed: nat)

  function Ingest(os: seq<Upload>, named: seq<NamedGroup>, caps: Caps): Result<Manifest> {
    match AcceptUploads(Taken([], 0, 0), os, caps)
    case Error(e) => Error(e)
    case Ok(t) =>
      if |t.files| > caps.maxEntries then Error(TooManyEntries)
      else if !PathsDistinct(t.files) then Error(PathCollision)
      else match MapSafeGroups(named, t.files)
        case Error(e) => Error(e)
        case Ok(gs) => Ok(Manifest(t.files, gs, t.expanded, t.compressed))
  }

  // ---- What was uploaded, summed without regard to acceptance ----

  function MembersOf(o: Upload): seq<Member> {
    match o
    case Flat(m) => [m]
    case Archive(_, ms) => ms
  }

  function AllMembers(os: seq<Upload>): seq<Member> {
    if os == [] then [] else AllMembers(os[..|os| - 1]) + MembersOf(os[|os| - 1])
  }

  function Bytes(ms: seq<Member>): nat {
    if ms == [] then 0 else Bytes(ms[..|ms| - 1]) + ms[|ms| - 1].bytes
  }

  function Compressed(os: seq<Upload>): nat {
    if os == [] then 0
    else Compressed(os[..|os| - 1]) + if os[|os| - 1].Archive? then os[|os| - 1].bytes else 0
  }

  /** The file a member becomes. */
  ghost predicate Becomes(m: Member, f: File, caps: Caps) {
    var n := NormalizeEntryPath(OrElse(m.path, m.name));
    && n.Ok? && f == FileOf(m, n.value) && f.depth <= caps.maxDepth
    && !m.link && !m.binary
  }

  /** So far every member has become a file, in order, within the cap on bytes. */
  ghost predicate TookAll(t: Taken, ms: seq<Member>, caps: Caps) {
    && |t.files| == |ms| && (forall i :: 0 <= i < |ms| ==> Becomes(ms[i], t.files[i], caps))
    && t.expanded == Bytes(ms) && t.expanded <= caps.maxExpandedBytes
  }

  lemma MemberTaken(t: Taken, ms: seq<Member>, m: Member, caps: Caps)
    requires TookAll(t, ms, caps) && AcceptMember(t, m, caps).Ok?
    ensures var u := AcceptMember(t, m, caps).value; TookAll(u, ms + [m], caps) && u.compressed == t.compressed
  {
    assert (ms + [m])[..|ms|] == ms;
    hide NormalizeEntryPath, IsArchiveName;
  }

  lemma {:induction false} MembersTaken(t: Taken, ms: seq<Member>, more: seq<Member>, caps: Caps)
    requires TookAll(t, ms, caps) && AcceptMembers(t, more, caps).Ok?
    ensures var u := AcceptMembers(t, more, caps).value; TookAll(u, ms + more, caps) && u.compressed == t.compressed
    decreases |more|
  {
    hide TookAll, AcceptMember;
    if more == [] {
      assert ms + more == ms;
    } else {
      MemberTaken(t, ms, more[0], caps);
      MembersTaken(AcceptMember(t, more[0], caps).value, ms + [more[0]], more[1..], caps);
      assert ms + [more[0]] + more[1..] == ms + more;
    }
  }

  /** After an archive, what all members so far expand to is bounded by what all archives so far weigh. */
  ghost predicate RatioKept(os: seq<Upload>, k: nat, caps: Caps)
    requires k < |os|
  {
    var so_far := os[..k + 1];
    os[k].Archive? && Compressed(so_far) > 0 ==> Bytes(AllMembers(so_far)) <= caps.maxRatio * Compressed(so_far)
  }

  lemma UploadTaken(t: Taken, os: seq<Upload>, o: Upload, caps: Caps)
    requires TookAll(t, AllMembers(os), caps) && t.compressed == Compressed(os) && AcceptUpload(t, o, caps).Ok?
    ensures var u := AcceptUpload(t, o, caps).value;
            TookAll(u, AllMembers(os + [o]), caps) && u.compressed == Compressed(os + [o]) && RatioKept(os + [o], |os|, caps)
  {
    hide AcceptMember, AcceptMembers, Becomes, NamesArchive, Bytes, AllMembers, Compressed;
    assert (os + [o])[..|os| + 1] == os + [o];
    UploadAdds(os, o);
    match o {
      case Flat(m) => MemberTaken(t, AllMembers(os), m, caps);
      case Archive(bytes, ms) => MembersTaken(t.(compressed := t.compressed + bytes), AllMembers(os), ms, caps);
    }
  }

  lemma UploadAdds(os: seq<Upload>, o: Upload)
    ensures AllMembers(os + [o]) == AllMembers(os) + MembersOf(o)
    ensures Compressed(os + [o]) == Compressed(os) + if o.Archive? then o.bytes else 0
  {
    assert (os + [o])[..|os|] == os;
  }

  lemma {:induction false} UploadsTaken(t: Taken, os: seq<Upload>, more: seq<Upload>, caps: Caps)
    requires TookAll(t, AllMembers(os), caps) && t.compressed == Compressed(os)
    requires (forall k :: 0 <= k < |os| ==> RatioKept(os, k, caps)) && AcceptUploads(t, more, caps).Ok?
    ensures var u := AcceptUploads(t, more, caps).value;
            TookAll(u, AllMembers(os + more), caps) && u.compressed == Compressed(os + more)
    ensures forall k :: 0 <= k < |os + more| ==> RatioKept(os + more, k, caps)
    decreases |more|
  {
    hide TookAll, AcceptUpload, Compressed, AllMembers;
    if more == [] {
      assert os + more == os;
    } else {
      var os1 := os + [more[0]];
      UploadTaken(t, os, more[0], caps);
      forall k | 0 <= k < |os| ensures RatioKept(os1, k, caps) {
        assert os1[..k + 1] == os[..k + 1];
        assert RatioKept(os, k, caps);
      }
      UploadsTaken(AcceptUpload(t, more[0], caps).value, os1, more[1..], caps);
      assert os1 + more[1..] == os + more;
    }
  }

  // ---- Groups ----

  /** Every group the caller named is made of accepted files. */
  lemma {:induction false} NamedFilesExist(files: seq<File>, named: seq<NamedGroup>)
    requires MapNamed(files, named).Ok?
    ensures var gs := MapNamed(files, named).value;
            |gs| == |named| && forall g :: 0 <= g < |gs| ==>
              |gs[g].ids| == |named[g].refs| && forall id :: id in gs[g].ids ==> id < |files|
    decreases |named|
  {
    if named != [] {
      RefsExist(files, named[0].refs);
      NamedFilesExist(files, named[1..]);
    }
  }

  lemma {:induction false} RefsExist(files: seq<File>, refs: seq<Ref>)
    ensures ResolveAll(files, refs).Ok? ==>
              |ResolveAll(files, refs).value| == |refs| && forall id :: id in ResolveAll(files, refs).value ==> id < |files|
    decreases |refs|
  {
    if refs != [] { RefsExist(files, refs[1..]); }
  }

  /**
   An accepted manifest has one file for each member, in order and with its own bytes, within the caps on
   count, bytes and depth, on pairwise distinct paths; after each archive the expansion so far is within the
   ratio; and groups derived from folders divide the files among at least two.
   */
  lemma AcceptedManifest(os: seq<Upload>, named: seq<NamedGroup>, caps: Caps)
    requires Ingest(os, named, caps).Ok?
    ensures var (m, ms) := (Ingest(os, named, caps).value, AllMembers(os));
            && |m.files| == |ms| <= caps.maxEntries
            && (forall i :: 0 <= i < |ms| ==> Becomes(ms[i], m.files[i], caps))
            && m.expanded == Bytes(ms) <= caps.maxExpandedBytes
            && m.compressed == Compressed(os)
            && PathsDistinct(m.files)
            && (forall k :: 0 <= k < |os| ==> RatioKept(os, k, caps))
            && (named == [] ==> |m.groups| >= 2 && Partitions(m.groups, Keys(m.files)))
  {
    hide Becomes, RatioKept, Partitions, PathsDistinct, AcceptUploads;
    UploadsTaken(Taken([], 0, 0), [], os, caps);
    assert [] + os == os;
    CollectPartitions(Keys(Ingest(os, named, caps).value.files));
  }

  /** Each of its paths is plain and no deeper than the cap, unless it is the empty path. */
  lemma AcceptedPathsArePlain(os: seq<Upload>, named: seq<NamedGroup>, caps: Caps, i: nat)
    requires Ingest(os, named, caps).Ok? && i < |Ingest(os, named, caps).value.files|
    ensures var f := Ingest(os, named, caps).value.files[i];
            && f.depth <= caps.maxDepth
            && (f.path != "" ==> IsPlainPath(f.path, f.depth))
            && (f.path == "" <==> f.depth == 0)
  {
    AcceptedManifest(os, named, caps);
    var m := AllMembers(os)[i];
    assert Becomes(m, Ingest(os, named, caps).value.files[i], caps);
    NormalizedIsPlain(OrElse(m.path, m.name));
    hide Ingest, NormalizeEntryPath, IsPlainPath, RatioKept, Partitions, PathsDistinct;
  }

  // ---- Why an upload is refused, and what it becomes ----

  predicate Forbidden(piece: string) { piece == ".." || piece == ".lnk" || LowerAll(piece) == "symlink" }

  /** A path is refused as empty, as absolute or with a drive, for controls, for a piece that leads away, or as too long: the first that holds. */
  lemma NormalizeIff(raw: string)
    ensures var (r, s) := (NormalizeEntryPath(raw), ForwardSlashes(raw));
            var empty := s == "" || s == ".";
            var absolute := StartsWith(s, "/") || Contains(s, "://") || (|s| > 1 && IsLetter(s[0]) && s[1] == ':');
            var controls := exists k :: 0 <= k < |s| && (s[k] < ' ' || s[k] == 127 as char);
            var leads := exists piece <- Split(s, '/') :: Forbidden(piece);
            var long := |Join(Plain(Split(s, '/')), '/')| > 720;
            && (r == Error(EmptyPath) <==> empty)
            && (r == Error(AbsolutePath) <==> !empty && absolute)
            && (r == Error(ControlChars) <==> !empty && !absolute && controls)
            && (r == Error(TraversalOrLink) <==> !empty && !absolute && !controls && leads)
            && (r == Error(PathTooLong) <==> !empty && !absolute && !controls && !leads && long)
            && (r.Ok? <==> !empty && !absolute && !controls && !leads && !long)
  {
    hide Contains, Split, Join, Plain, ForwardSlashes, LowerAll;
    var s := ForwardSlashes(raw);
    var all := Split(s, '/');
    var parts := Plain(all);
    Harmful();
    if piece :| piece in all && Forbidden(piece) {
      assert piece in parts;
      var k :| 0 <= k < |parts| && parts[k] == piece;
      assert IsRisky(parts[k]);
    }
    if k :| 0 <= k < |parts| && IsRisky(parts[k]) { assert parts[k] in parts && Forbidden(parts[k]); }
    assert s != "" ==> (s[0] == '/' <==> StartsWith(s, "/"));
  }

  lemma Harmful()
    ensures !Forbidden("") && !Forbidden(".")
  {
    assert |LowerAll("")| == 0 && |LowerAll(".")| == 1;
  }

  /** A path of plain pieces is accepted as it is. */
  lemma PlainPathKept(parts: seq<string>)
    requires parts != [] && forall k :: 0 <= k < |parts| ==> parts[k] != "" && parts[k] != "." && '/' !in parts[k]
    requires NormalizeEntryPath(Join(parts, '/')).Ok? && '\\' !in Join(parts, '/')
    ensures NormalizeEntryPath(Join(parts, '/')) == Ok(Normal(Join(parts, '/'), parts))
  {
    hide Contains, Split, Join, Plain, IsRisky;
    SplitJoin(parts, '/');
    PlainAll(parts);
    assert ForwardSlashes(Join(parts, '/')) == Join(parts, '/');
  }

  lemma {:induction false} PlainAll(parts: seq<string>)
    requires forall k :: 0 <= k < |parts| ==> parts[k] != "" && parts[k] != "."
    ensures Plain(parts) == parts
  {
    if parts != [] { PlainAll(parts[1..]); }
  }

  /** A member is refused for the first of these that holds; otherwise it becomes one file and its bytes are counted. */
  lemma MemberIff(t: Taken, m: Member, caps: Caps)
    ensures var (r, p) := (AcceptMember(t, m, caps), NormalizeEntryPath(if m.path != "" then m.path else m.name));
            && (m.link ==> r == Error(SymlinkOrLink))
            && (!m.link && p.Error? ==> r == Error(p.why))
            && (!m.link && p.Ok? ==>
                  var n := p.value;
                  var deep := |n.parts| > caps.maxDepth;
                  var unfit := m.mismatched || m.binary || m.undecoded;
                  var over := t.expanded + m.bytes > caps.maxExpandedBytes;
                  var nested := caps.rejectNestedArchives && n.parts != [] && IsArchiveName(n.parts[|n.parts| - 1]);
                  && (r == Error(DepthExceeded) <==> deep)
                  && (r == Error(MimeMismatch) <==> !deep && m.mismatched)
                  && (r == Error(BinaryRejected) <==> !deep && !m.mismatched && m.binary)
                  && (r == Error(Utf16Unnormalized) <==> !deep && !m.mismatched && !m.binary && m.undecoded)
                  && (r == Error(ExpandedBytes) <==> !deep && !unfit && over)
                  && (r == Error(NestedArchive) <==> !deep && !unfit && !over && nested)
                  && (r.Ok? <==> !deep && !unfit && !over && !nested)
                  && (r.Ok? ==>
                        && |r.value.files| == |t.files| + 1 && r.value.files[..|t.files|] == t.files
                        && r.value.expanded == t.expanded + m.bytes && r.value.compressed == t.compressed
                        && var f := r.value.files[|t.files|];
                           && f.path == n.path && f.depth == |n.parts| && f.bytes == m.bytes
                           && f.display == (if n.parts == [] then None else Some(n.parts[|n.parts| - 1]))
                           && f.key == (if m.hint != "" then Some(m.hint) else if n.parts == [] then None else Some(n.parts[0]))))
  {
    hide NormalizeEntryPath, IsArchiveName;
  }

  /** An archive is refused for a member named as an archive, for its first unfit member, or for what it all expands to. */
  lemma ArchiveIff(t: Taken, bytes: nat, ms: seq<Member>, caps: Caps)
    ensures var (r, u) := (AcceptUpload(t, Archive(bytes, ms), caps), t.(compressed := t.compressed + bytes));
            var nested := caps.rejectNestedArchives && exists m <- ms :: IsArchiveName(if m.name != "" then m.name else m.path);
            && (nested ==> r == Error(NestedArchive))
            && (!nested && AcceptMembers(u, ms, caps).Error? ==> r == AcceptMembers(u, ms, caps))
            && (!nested && AcceptMembers(u, ms, caps).Ok? ==>
                  var v := AcceptMembers(u, ms, caps).value;
                  if v.compressed > 0 && v.expanded > caps.maxRatio * v.compressed then r == Error(BombRatio) else r == Ok(v))
  {
    hide AcceptMembers, IsArchiveName;
    if m :| m in ms && IsArchiveName(if m.name != "" then m.name else m.path) {
      var k :| 0 <= k < |ms| && ms[k] == m;
      assert NamesArchive(ms[k]);
    }
    if k :| 0 <= k < |ms| && NamesArchive(ms[k]) { assert ms[k] in ms; }
  }

  /** The names of archives, by their ending in any case. */
  lemma IsArchiveNameIff(name: string)
    ensures IsArchiveName(name) <==> exists e :: e in [".zip", ".tar", ".tgz", ".tar.gz", ".rar", ".7z"] && EndsWith(LowerAll(name), e)
  {
    var es := [".zip", ".tar", ".tgz", ".tar.gz", ".rar", ".7z"];
    assert forall e :: e in es ==> e == es[0] || e == es[1] || e == es[2] || e == es[3] || e == es[4] || e == es[5];
    assert es[0] in es && es[1] in es && es[2] in es && es[3] in es && es[4] in es && es[5] in es;
    hide EndsWith, LowerAll;
  }

  /** Uploads all accepted make a manifest unless they are too many, share a path, or leave fewer than two groups. */
  lemma IngestIff(os: seq<Upload>, named: seq<NamedGroup>, caps: Caps)
    requires AcceptUploads(Taken([], 0, 0), os, caps).Ok?
    ensures var (r, t) := (Ingest(os, named, caps), AcceptUploads(Taken([], 0, 0), os, caps).value);
            var many := |t.files| > caps.maxEntries;
            var shared := exists i, j :: 0 <= i < j < |t.files| && t.files[i].path == t.files[j].path;
            && (r == Error(TooManyEntries) ==> many) && (many ==> r == Error(TooManyEntries))
            && (!many && shared ==> r == Error(PathCollision))
            && (!many && !shared && named == [] ==>
                  if |Derive(t.files)| >= 2 then r == Ok(Manifest(t.files, Derive(t.files), t.expanded, t.compressed))
                  else r == Error(InsufficientGroups))
            && (!many && !shared && named != [] ==>
                  if MapNamed(t.files, named).Ok? then r == Ok(Manifest(t.files, MapNamed(t.files, named).value, t.expanded, t.compressed))
                  else r == Error(UnmappedFile))
  {
    hide AcceptUploads, Derive;
    OnlyUnmapped(AcceptUploads(Taken([], 0, 0), os, caps).value.files, named);
    hide MapNamed;
  }

  lemma {:induction false} OnlyUnmapped(files: seq<File>, named: seq<NamedGroup>)
    ensures MapNamed(files, named).Error? ==> MapNamed(files, named).why == UnmappedFile
    decreases |named|
  {
    if named != [] {
      OnlyUnmappedRefs(files, named[0].refs);
      OnlyUnmapped(files, named[1..]);
    }
  }

  lemma {:induction false} OnlyUnmappedRefs(files: seq<File>, refs: seq<Ref>)
    ensures ResolveAll(files, refs).Error? ==> ResolveAll(files, refs).why == UnmappedFile
    decreases |refs|
  {
    if refs != [] { OnlyUnmappedRefs(files, refs[1..]); }
  }

  // ---- The loops ----

  method IngestMembers(t0: Taken, ms: seq<Member>, caps: Caps) returns (r: Result<Taken>)
    ensures r == AcceptMembers(t0, ms, caps)
  {
    hide AcceptMember;
    var t := t0;
    for i := 0 to |ms|
      invariant AcceptMembers(t, ms[i..], caps) == AcceptMembers(t0, ms, caps)
    {
      assert ms[i..][0] == ms[i] && ms[i..][1..] == ms[i + 1..];
      var result := AcceptMember(t, ms[i], caps);
      if result.Error? {
        return Error(result.why);
      }
      t := result.value;
    }
    assert ms[|ms|..] == [];
    return Ok(t);
  }

  method IngestUpload(t: Taken, o: Upload, caps: Caps) returns (r: Result<Taken>)
    ensures r == AcceptUpload(t, o, caps)
  {
    hide AcceptMember, NamesArchive, AcceptMembers;
    match o {
      case Flat(m) =>
        r := AcceptMember(t, m, caps);
      case Archive(bytes, members) =>
        var taken := t.(compressed := t.compressed + bytes);
        if caps.rejectNestedArchives {
          for i := 0 to |members|
            invariant forall k :: 0 <= k < i ==> !NamesArchive(members[k])
          {
            if NamesArchive(members[i]) {
              return Error(NestedArchive);
            }
          }
        }
        r := IngestMembers(taken, members, caps);
        if r.Ok? && r.value.compressed > 0 && r.value.expanded > caps.maxRatio * r.value.compressed {
          return Error(BombRatio);
        }
    }
  }

  method HasCollision(files: seq<File>) returns (collides: bool)
    ensures collides == !PathsDistinct(files)
  {
    var seen: set<string> := {};
    for i := 0 to |files|
      invariant forall p :: p in seen <==> exists k :: 0 <= k < i && files[k].path == p
      invariant PathsDistinct(files[..i])
    {
      if files[i].path in seen {
        return true;
      }
      seen := seen + {files[i].path};
      assert files[..i + 1] == files[..i] + [files[i]];
    }
    assert files[..|files|] == files;
    return false;
  }

  method IngestObjects(os: seq<Upload>, named: seq<NamedGroup>, caps: Caps) returns (r: Result<Manifest>)
    ensures r == Ingest(os, named, caps)
  {
    hide AcceptUpload, PathsDistinct, Collect, MapNamed;
    var t := Taken([], 0, 0);
    for i := 0 to |os|
      invariant AcceptUploads(t, os[i..], caps) == AcceptUploads(Taken([], 0, 0), os, caps)
    {
      assert os[i..][0] == os[i] && os[i..][1..] == os[i + 1..];
      var result := IngestUpload(t, os[i], caps);
      if result.Error? {
        return Error(result.why);
      }
      t := result.value;
    }
    assert os[|os|..] == [];
    if |t.files| > caps.maxEntries {
      return Error(TooManyEntries);
    }
    var collides := HasCollision(t.files);
    if collides {
      return Error(PathCollision);
    }
    if named != [] {
      var mapped := MapNamed(t.files, named);
      return if mapped.Ok? then Ok(Manifest(t.files, mapped.value, t.expanded, t.compressed)) else Error(mapped.why);
    }
    var derived := CollectAll(Keys(t.files));
    if |derived| < 2 {
      return Error(InsufficientGroups);
    }
    return Ok(Manifest(t.files, derived, t.expanded, t.compressed));
  }
}
