/**
 The credential vault: envelope encryption under versioned keys, rotation, revocation, and backups that
 travel between vaults sharing a master key. Authenticated ciphers are ideal: a box opens under the key
 that sealed it and under no other.
 */
module Vaults {
  import opened Text

  type Key = nat

  type Id = nat

  /** A data key sealed under a key-encryption key; `version` is one octet. */
  datatype Wrapped = Wrapped(version: nat, kek: Key, dek: Key)

  datatype Cipher = Cipher(dek: Key, text: string)

  datatype Record = Record(
    tenant: string,
    wrapped: Option<Wrapped>,
    cipher: Option<Cipher>,
    keyVersion: nat,
    revoked: bool)

  datatype Vault = Vault(keyVersion: nat, keys: map<nat, Key>, credentials: map<Id, Record>)

  /** An exported backup: an octet naming the key it is sealed under, and the portable records. */
  datatype Backup = Backup(version: nat, kek: Key, credentials: map<Id, Record>)

  datatype Lease = Lease(valid: bool, tenant: string)

  datatype Request = Request(credential: Id, tenant: string, worker: string, lease: Option<Lease>)

  datatype Refusal =
    | InvalidInput | NotFound | WorkerIdentity | InvalidLease | RevokedOrMissing | CrossTenant | KeyMissing
    | AuthenticationFailed

  datatype Decrypted = Granted(text: string) | Refused(why: Refusal)

  // ---- The ideal ciphers ----

  function Wrap(dek: Key, kek: Key, version: nat): Wrapped { Wrapped(version % 256, kek, dek) }

  /** None is the exception an authenticated cipher raises on a wrong key. */
  function Unwrap(w: Wrapped, kek: Key): Option<Key> {
    if w.kek == kek then Some(w.dek) else None
  }

  function OpenId(c: Cipher, dek: Key): Option<string> {
    if c.dek == dek then Some(c.text) else None
  }

  predicate IsNumericId(text: string) {
    1 <= |text| <= 12 && forall i :: 0 <= i < |text| ==> IsDigit(text[i])
  }

  // ---- Operations ----

  function New(master: Key): Vault { Vault(1, map[1 := master], map[]) }

  predicate HasCurrentKey(v: Vault) { v.keyVersion in v.keys }

  /** Storing draws a fresh identifier and a data key. */
  function Store(v: Vault, tenant: string, text: string, id: Id, dek: Key): Vault
    requires HasCurrentKey(v)
  {
    if tenant == "" || !IsNumericId(text) then v
    else
      var wrapped := Wrap(dek, v.keys[v.keyVersion], v.keyVersion);
      v.(credentials := v.credentials[id := Record(tenant, Some(wrapped), Some(Cipher(dek, text)), v.keyVersion, false)])
  }

  predicate Owns(v: Vault, tenant: string, id: Id) {
    id in v.credentials && v.credentials[id].tenant == tenant
  }

  function Replace(v: Vault, tenant: string, old_: Id, text: string, id: Id, dek: Key): Vault
    requires HasCurrentKey(v)
  {
    if !Owns(v, tenant, old_) then v
    else
      var r := v.credentials[old_];
      Store(v.(credentials := v.credentials[old_ := r.(revoked := true)]), tenant, text, id, dek)
  }

  function Delete(v: Vault, tenant: string, id: Id): Vault {
    if !Owns(v, tenant, id) then v
    else
      var r := v.credentials[id];
      v.(credentials := v.credentials[id := r.(revoked := true, cipher := None, wrapped := None)])
  }

  function Worker(): string { "submission-worker" }

  /** The record's two boxes opened one inside the other; None is an exception. */
  function OpenRecord(r: Record, kek: Key): Option<string> {
    if r.wrapped.None? || r.cipher.None? then None
    else
      var dek := Unwrap(r.wrapped.value, kek);
      if dek.None? then None else OpenId(r.cipher.value, dek.value)
  }

  function Decrypt(v: Vault, q: Request): Decrypted {
    if q.worker != Worker() then Refused(WorkerIdentity)
    else if q.lease.None? || !q.lease.value.valid || q.lease.value.tenant != q.tenant then Refused(InvalidLease)
    else if q.credential !in v.credentials || v.credentials[q.credential].revoked
            || v.credentials[q.credential].cipher.None? then Refused(RevokedOrMissing)
    else
      var r := v.credentials[q.credential];
      if r.tenant != q.tenant then Refused(CrossTenant)
      else if r.keyVersion !in v.keys then Refused(KeyMissing)
      else match OpenRecord(r, v.keys[r.keyVersion])
        case Some(text) => Granted(text)
        case None => Refused(AuthenticationFailed)
  }

  /** A record sealed again under another key; unchanged where the cipher would not open it. */
  function Rewrap(r: Record, from: Key, to: Key, version: nat): Record {
    if r.wrapped.None? then r
    else match Unwrap(r.wrapped.value, from)
      case Some(dek) => r.(wrapped := Some(Wrap(dek, to, version)), keyVersion := version)
      case None => r
  }

  function RotateRecord(r: Record, keys: map<nat, Key>, next: nat): Record
    requires next in keys
  {
    if r.revoked || r.wrapped.None? || r.keyVersion !in keys then r
    else Rewrap(r, keys[r.keyVersion], keys[next], next)
  }

  function Rotate(v: Vault, newKey: Key): Vault {
    var next := v.keyVersion + 1;
    var keys := v.keys[next := newKey];
    Vault(next, keys, map id | id in v.credentials :: RotateRecord(v.credentials[id], keys, next))
  }

  predicate Portable(r: Record, keys: map<nat, Key>) {
    !r.revoked && r.wrapped.Some? && r.cipher.Some? && r.keyVersion in keys
  }

  /** Live records leave sealed under the master key, whatever they were sealed under. */
  function Export(v: Vault): Backup
    requires 1 in v.keys
  {
    Backup(1, v.keys[1],
           map id | id in v.credentials && Portable(v.credentials[id], v.keys) ::
             Rewrap(v.credentials[id], v.keys[v.credentials[id].keyVersion], v.keys[1], 1))
  }

  datatype Imported = Restored(count: nat) | Rejected(why: Refusal)

  function ImportResult(v: Vault, b: Backup): Imported {
    if b.version !in v.keys then Rejected(KeyMissing)
    else if b.kek != v.keys[b.version] then Rejected(AuthenticationFailed)
    else Restored(|Accepted(v, b)|)
  }

  function Accepted(v: Vault, b: Backup): set<Id> {
    set id | id in b.credentials && Portable(b.credentials[id], v.keys)
  }

  /** The accepted records of a backup, sealed again under the vault's current key. */
  function Resealed(v: Vault, b: Backup): map<Id, Record>
    requires HasCurrentKey(v)
  {
    map id | id in Accepted(v, b) ::
      Rewrap(b.credentials[id], v.keys[b.credentials[id].keyVersion], v.keys[v.keyVersion], v.keyVersion)
  }

  function Import(v: Vault, b: Backup): Vault
    requires HasCurrentKey(v)
  {
    if ImportResult(v, b).Rejected? then v else v.(credentials := v.credentials + Resealed(v, b))
  }

  // ---- The reference: who stored what, and which credentials are live where. No keys, no ciphers ----

  datatype Origin = Origin(tenant: string, text: string)

  /** `known` are the credentials a vault has a record of, `live` those not revoked. */
  datatype Holding = Holding(master: Key, known: set<Id>, live: set<Id>)

  datatype Snapshot = Snapshot(master: Key, live: set<Id>)

  datatype Reference = Reference(
    holdings: map<nat, Holding>,
    snapshots: seq<Snapshot>,
    origins: map<Id, Origin>)

  datatype World = World(vaults: map<nat, Vault>, backups: seq<Backup>)

  datatype Event =
    | Open(v: nat, master: Key)
    | StoreIn(v: nat, tenant: string, text: string, id: Id, dek: Key)
    | ReplaceIn(v: nat, tenant: string, replaced: Id, text: string, id: Id, dek: Key)
    | DeleteIn(v: nat, tenant: string, id: Id)
    | RotateIn(v: nat, newKey: Key)
    | ExportFrom(v: nat)
    | ImportInto(v: nat, backup: nat)

  /** Drawn identifiers are new; a vault is used once it is open. */
  predicate Enabled(a: Reference, e: Event) {
    match e
    case Open(v, _) => v !in a.holdings
    case StoreIn(v, _, _, id, _) => v in a.holdings && id !in a.origins
    case ReplaceIn(v, _, _, _, id, _) => v in a.holdings && id !in a.origins
    case DeleteIn(v, _, _) => v in a.holdings
    case RotateIn(v, _) => v in a.holdings
    case ExportFrom(v) => v in a.holdings
    case ImportInto(v, k) => v in a.holdings && k < |a.snapshots|
  }

  predicate Stores(tenant: string, text: string) { tenant != "" && IsNumericId(text) }

  predicate Known(h: Holding, origins: map<Id, Origin>, tenant: string, id: Id) {
    id in h.known && id in origins && origins[id].tenant == tenant
  }

  function RefStore(a: Reference, v: nat, h: Holding, tenant: string, text: string, id: Id): Reference {
    if !Stores(tenant, text) then a.(holdings := a.holdings[v := h])
    else a.(holdings := a.holdings[v := h.(known := h.known + {id}, live := h.live + {id})],
            origins := a.origins[id := Origin(tenant, text)])
  }

  function RefStep(a: Reference, e: Event): Reference
    requires Enabled(a, e)
  {
    match e
    case Open(v, master) => a.(holdings := a.holdings[v := Holding(master, {}, {})])
    case StoreIn(v, tenant, text, id, _) => RefStore(a, v, a.holdings[v], tenant, text, id)
    case ReplaceIn(v, tenant, replaced, text, id, _) =>
      var h := a.holdings[v];
      if !Known(h, a.origins, tenant, replaced) then a
      else RefStore(a, v, h.(live := h.live - {replaced}), tenant, text, id)
    case DeleteIn(v, tenant, id) =>
      var h := a.holdings[v];
      if !Known(h, a.origins, tenant, id) then a
      else a.(holdings := a.holdings[v := h.(live := h.live - {id})])
    case RotateIn(_, _) => a
    case ExportFrom(v) => a.(snapshots := a.snapshots + [Snapshot(a.holdings[v].master, a.holdings[v].live)])
    case ImportInto(v, k) =>
      var (h, s) := (a.holdings[v], a.snapshots[k]);
      if s.master != h.master then a
      else a.(holdings := a.holdings[v := h.(known := h.known + s.live, live := h.live + s.live)])
  }

  /** What a decryption request is owed. */
  function Owed(live: set<Id>, origins: map<Id, Origin>, q: Request): Decrypted {
    if q.worker != Worker() then Refused(WorkerIdentity)
    else if q.lease.None? || !q.lease.value.valid || q.lease.value.tenant != q.tenant then Refused(InvalidLease)
    else if q.credential !in live || q.credential !in origins then Refused(RevokedOrMissing)
    else if origins[q.credential].tenant != q.tenant then Refused(CrossTenant)
    else Granted(origins[q.credential].text)
  }

  function Step(w: World, e: Event): World
    requires StepDefined(w, e)
  {
    match e
    case Open(v, master) => w.(vaults := w.vaults[v := New(master)])
    case StoreIn(v, tenant, text, id, dek) => w.(vaults := w.vaults[v := Store(w.vaults[v], tenant, text, id, dek)])
    case ReplaceIn(v, tenant, replaced, text, id, dek) =>
      w.(vaults := w.vaults[v := Replace(w.vaults[v], tenant, replaced, text, id, dek)])
    case DeleteIn(v, tenant, id) => w.(vaults := w.vaults[v := Delete(w.vaults[v], tenant, id)])
    case RotateIn(v, newKey) => w.(vaults := w.vaults[v := Rotate(w.vaults[v], newKey)])
    case ExportFrom(v) => w.(backups := w.backups + [Export(w.vaults[v])])
    case ImportInto(v, k) => w.(vaults := w.vaults[v := Import(w.vaults[v], w.backups[k])])
  }

  predicate StepDefined(w: World, e: Event) {
    && (!e.Open? ==> e.v in w.vaults && HasCurrentKey(w.vaults[e.v]) && 1 in w.vaults[e.v].keys)
    && (e.ImportInto? ==> e.backup < |w.backups|)
  }

  // ---- What ties a vault to the reference ----

  /** A live record opens to the text first stored under its identifier. */
  ghost predicate RecordKept(r: Record, keys: map<nat, Key>, o: Origin) {
    && r.tenant == o.tenant
    && (r.revoked || (r.wrapped.Some? && r.cipher.Some? && r.keyVersion in keys
                      && OpenRecord(r, keys[r.keyVersion]) == Some(o.text)))
  }

  ghost predicate RecordsKept(rs: map<Id, Record>, keys: map<nat, Key>, origins: map<Id, Origin>) {
    forall id <- rs :: id in origins && RecordKept(rs[id], keys, origins[id])
  }

  function Live(rs: map<Id, Record>): set<Id> { set id | id in rs && !rs[id].revoked }

  ghost predicate KeysKept(v: Vault, master: Key) {
    && v.keyVersion >= 1 && 1 in v.keys && v.keys[1] == master
    && forall k :: k in v.keys <==> 1 <= k <= v.keyVersion
  }

  ghost predicate VaultKept(v: Vault, h: Holding, origins: map<Id, Origin>) {
    && KeysKept(v, h.master)
    && RecordsKept(v.credentials, v.keys, origins)
    && h.known == v.credentials.Keys
    && h.live == Live(v.credentials)
  }

  ghost predicate BackupKept(b: Backup, s: Snapshot, origins: map<Id, Origin>) {
    && b.version == 1 && b.kek == s.master
    && b.credentials.Keys == s.live == Live(b.credentials)
    && (forall id <- b.credentials :: b.credentials[id].keyVersion == 1)
    && RecordsKept(b.credentials, map[1 := b.kek], origins)
  }

  ghost predicate Simulates(w: World, a: Reference) {
    && w.vaults.Keys == a.holdings.Keys
    && |w.backups| == |a.snapshots|
    && (forall v <- w.vaults :: VaultKept(w.vaults[v], a.holdings[v], a.origins))
    && (forall k :: 0 <= k < |w.backups| ==> BackupKept(w.backups[k], a.snapshots[k], a.origins))
  }

  /** A vault that keeps its records answers every request as owed. */
  lemma AnswersAreOwed(v: Vault, h: Holding, origins: map<Id, Origin>, q: Request)
    requires VaultKept(v, h, origins)
    ensures Decrypt(v, q) == Owed(h.live, origins, q)
  {
    hide Worker;
  }

  lemma RotateKept(v: Vault, h: Holding, origins: map<Id, Origin>, newKey: Key)
    requires VaultKept(v, h, origins)
    ensures VaultKept(Rotate(v, newKey), h, origins)
  {
    var r := Rotate(v, newKey);
    assert Live(r.credentials) == Live(v.credentials);
  }

  lemma StoreKept(v: Vault, a: Reference, h: Holding, i: nat, tenant: string, text: string, id: Id, dek: Key)
    requires VaultKept(v, h, a.origins) && id !in a.origins
    ensures var a' := RefStore(a, i, h, tenant, text, id);
            VaultKept(Store(v, tenant, text, id, dek), a'.holdings[i], a'.origins)
  {
    var r := Store(v, tenant, text, id, dek);
    hide IsNumericId;
    if Stores(tenant, text) {
      assert Live(r.credentials) == Live(v.credentials) + {id};
    }
  }

  lemma RevokeKept(v: Vault, h: Holding, origins: map<Id, Origin>, id: Id, r: Record)
    requires VaultKept(v, h, origins) && id in v.credentials
    requires r.revoked && r.tenant == v.credentials[id].tenant
    ensures VaultKept(v.(credentials := v.credentials[id := r]), h.(live := h.live - {id}), origins)
  {
    assert Live(v.credentials[id := r]) == Live(v.credentials) - {id};
  }

  lemma ExportKept(v: Vault, h: Holding, origins: map<Id, Origin>)
    requires VaultKept(v, h, origins)
    ensures BackupKept(Export(v), Snapshot(h.master, h.live), origins)
  {
    var b := Export(v);
    assert b.credentials.Keys == Live(v.credentials) == Live(b.credentials);
  }

  lemma ResealedKept(v: Vault, b: Backup, s: Snapshot, origins: map<Id, Origin>)
    requires KeysKept(v, s.master) && BackupKept(b, s, origins)
    ensures Accepted(v, b) == Resealed(v, b).Keys == Live(Resealed(v, b)) == s.live
    ensures RecordsKept(Resealed(v, b), v.keys, origins)
  {
    var r := Resealed(v, b);
    assert Accepted(v, b) == s.live;
    forall id <- r ensures id in origins && RecordKept(r[id], v.keys, origins[id]) && !r[id].revoked {
      ImportedRecordKept(b.credentials[id], v.keys, origins[id], v.keyVersion);
    }
    assert Live(r) == s.live;
  }

  lemma MergedLive(rs: map<Id, Record>, added: map<Id, Record>)
    requires Live(added) == added.Keys
    ensures Live(rs + added) == Live(rs) + added.Keys
  {
  }

  lemma ImportKept(v: Vault, h: Holding, b: Backup, s: Snapshot, origins: map<Id, Origin>)
    requires VaultKept(v, h, origins) && BackupKept(b, s, origins)
    ensures s.master != h.master ==> ImportResult(v, b) == Rejected(AuthenticationFailed) && Import(v, b) == v
    ensures s.master == h.master ==>
              && ImportResult(v, b) == Restored(|s.live|)
              && VaultKept(Import(v, b), h.(known := h.known + s.live, live := h.live + s.live), origins)
  {
    hide RecordKept, Live, Resealed, Accepted, Import, ImportResult;
    ImportShape(v, h, b, s, origins);
    if s.master == h.master {
      ResealedKept(v, b, s, origins);
      MergedLive(v.credentials, Resealed(v, b));
    }
  }

  lemma ImportedRecordKept(c: Record, keys: map<nat, Key>, o: Origin, version: nat)
    requires 1 in keys && version in keys && c.keyVersion == 1 && !c.revoked && RecordKept(c, map[1 := keys[1]], o)
    ensures RecordKept(Rewrap(c, keys[1], keys[version], version), keys, o)
  {
  }

  /** Growth of the reference: nothing stored is forgotten and no snapshot is lost. */
  ghost predicate Extends(a: Reference, a': Reference) {
    && (forall id <- a.origins :: id in a'.origins && a'.origins[id] == a.origins[id])
    && |a.snapshots| <= |a'.snapshots| && (forall k :: 0 <= k < |a.snapshots| ==> a'.snapshots[k] == a.snapshots[k])
    && (forall v <- a.holdings :: v in a'.holdings && a'.holdings[v].master == a.holdings[v].master)
  }

  lemma StepExtends(a: Reference, e: Event)
    requires Enabled(a, e)
    ensures Extends(a, RefStep(a, e))
  {
    hide IsNumericId;
  }

  /** One event moves vaults and reference together. */
  lemma StepSimulates(w: World, a: Reference, e: Event)
    requires Simulates(w, a) && Enabled(a, e)
    ensures StepDefined(w, e) && Simulates(Step(w, e), RefStep(a, e))
  {
    if !e.Open? { assert VaultKept(w.vaults[e.v], a.holdings[e.v], a.origins); }
    assert StepDefined(w, e);
    ChangedKept(w, a, e);
    UnchangedKept(w, a, e);
    StepFrame(w, a, e);
    hide VaultKept, BackupKept, RefStep, Step, StepDefined;
  }

  lemma VaultGrows(v: Vault, h: Holding, a: Reference, a': Reference)
    requires VaultKept(v, h, a.origins) && Extends(a, a')
    ensures VaultKept(v, h, a'.origins)
  {
    hide RecordKept, KeysKept, Live;
  }

  lemma BackupGrows(b: Backup, s: Snapshot, a: Reference, a': Reference)
    requires BackupKept(b, s, a.origins) && Extends(a, a')
    ensures BackupKept(b, s, a'.origins)
  {
    hide RecordKept, Live;
  }

  /** An event touches one vault and adds at most one backup, in the vaults and in the reference alike. */
  lemma StepFrame(w: World, a: Reference, e: Event)
    requires Enabled(a, e) && StepDefined(w, e)
    ensures var w', a' := Step(w, e), RefStep(a, e);
            && w'.vaults.Keys == w.vaults.Keys + {e.v} && a'.holdings.Keys == a.holdings.Keys + {e.v}
            && (forall v <- w.vaults :: v != e.v ==> w'.vaults[v] == w.vaults[v])
            && (forall v <- a.holdings :: v != e.v ==> a'.holdings[v] == a.holdings[v])
            && w'.backups == w.backups + (if e.ExportFrom? then [Export(w.vaults[e.v])] else [])
            && a'.snapshots == a.snapshots + (if e.ExportFrom? then [Snapshot(a.holdings[e.v].master, a.holdings[e.v].live)] else [])
            && (e.ExportFrom? ==> a' == a.(snapshots := a'.snapshots))
  {
    hide Rotate, Export, Import, Store, Replace, Delete, IsNumericId, Known, HasCurrentKey;
  }

  lemma UnchangedKept(w: World, a: Reference, e: Event)
    requires Simulates(w, a) && Enabled(a, e) && StepDefined(w, e)
    ensures var w', a' := Step(w, e), RefStep(a, e);
            && (forall v <- w.vaults :: v != e.v ==> VaultKept(w'.vaults[v], a'.holdings[v], a'.origins))
            && (forall k :: 0 <= k < |w.backups| ==> BackupKept(w'.backups[k], a'.snapshots[k], a'.origins))
  {
    var w', a' := Step(w, e), RefStep(a, e);
    StepExtends(a, e);
    StepFrame(w, a, e);
    hide Step, RefStep, VaultKept, BackupKept, Extends, StepDefined, Enabled;
    forall v <- w.vaults | v != e.v ensures VaultKept(w'.vaults[v], a'.holdings[v], a'.origins) {
      VaultGrows(w.vaults[v], a.holdings[v], a, a');
    }
    forall k | 0 <= k < |w.backups| ensures BackupKept(w'.backups[k], a'.snapshots[k], a'.origins) {
      BackupGrows(w.backups[k], a.snapshots[k], a, a');
    }
  }

  lemma ChangedKept(w: World, a: Reference, e: Event)
    requires Simulates(w, a) && Enabled(a, e) && StepDefined(w, e)
    ensures var w', a' := Step(w, e), RefStep(a, e);
            VaultKept(w'.vaults[e.v], a'.holdings[e.v], a'.origins)
    ensures e.ExportFrom? ==> BackupKept(Export(w.vaults[e.v]), Snapshot(a.holdings[e.v].master, a.holdings[e.v].live), a.origins)
  {
    match e {
      case Open(v, master) =>
        assert Live(New(master).credentials) == {};
      case StoreIn(v, tenant, text, id, dek) =>
        StoreKept(w.vaults[v], a, a.holdings[v], v, tenant, text, id, dek);
      case ReplaceIn(v, tenant, replaced, text, id, dek) =>
        var c, h := w.vaults[v], a.holdings[v];
        assert Owns(c, tenant, replaced) <==> Known(h, a.origins, tenant, replaced);
        if Owns(c, tenant, replaced) {
          var r := c.credentials[replaced].(revoked := true);
          RevokeKept(c, h, a.origins, replaced, r);
          StoreKept(c.(credentials := c.credentials[replaced := r]), a, h.(live := h.live - {replaced}), v, tenant, text, id, dek);
        }
      case DeleteIn(v, tenant, id) =>
        var c, h := w.vaults[v], a.holdings[v];
        assert Owns(c, tenant, id) <==> Known(h, a.origins, tenant, id);
        if Owns(c, tenant, id) {
          RevokeKept(c, h, a.origins, id, c.credentials[id].(revoked := true, cipher := None, wrapped := None));
        }
      case RotateIn(v, newKey) =>
        RotateKept(w.vaults[v], a.holdings[v], a.origins, newKey);
      case ExportFrom(v) =>
        ExportKept(w.vaults[v], a.holdings[v], a.origins);
      case ImportInto(v, k) =>
        ImportKept(w.vaults[v], a.holdings[v], w.backups[k], a.snapshots[k], a.origins);
    }
  }

  // ---- Whole runs ----

  predicate Legal(a: Reference, es: seq<Event>)
    decreases |es|
  {
    es == [] || (Enabled(a, es[0]) && Legal(RefStep(a, es[0]), es[1..]))
  }

  function RefRun(a: Reference, es: seq<Event>): Reference
    requires Legal(a, es)
    decreases |es|
  {
    if es == [] then a else RefRun(RefStep(a, es[0]), es[1..])
  }

  /** The run of the vaults themselves, from a state the reference describes. */
  function Run(w: World, es: seq<Event>): World
    decreases |es|
  {
    if es == [] || !StepDefined(w, es[0]) then w else Run(Step(w, es[0]), es[1..])
  }

  lemma {:induction false} RunSimulates(w: World, a: Reference, es: seq<Event>)
    requires Simulates(w, a) && Legal(a, es)
    ensures Simulates(Run(w, es), RefRun(a, es))
    decreases |es|
  {
    if es != [] {
      StepSimulates(w, a, es[0]);
      RunSimulates(Step(w, es[0]), RefStep(a, es[0]), es[1..]);
    }
  }

  function Nothing(): Reference { Reference(map[], [], map[]) }

  /**
   At every point of every run over any number of vaults and backups, each vault answers each request
   exactly as the reference owes: a live credential decrypts, for its own tenant only, to the text first
   stored under it.
   */
  lemma AnswersAlwaysOwed(es: seq<Event>, v: nat, q: Request)
    requires Legal(Nothing(), es)
    ensures var (w, a) := (Run(World(map[], []), es), RefRun(Nothing(), es));
            && w.vaults.Keys == a.holdings.Keys
            && (v in w.vaults ==> Decrypt(w.vaults[v], q) == Owed(a.holdings[v].live, a.origins, q))
  {
    RunSimulates(World(map[], []), Nothing(), es);
    var w, a := Run(World(map[], []), es), RefRun(Nothing(), es);
    if v in w.vaults {
      AnswersAreOwed(w.vaults[v], a.holdings[v], a.origins, q);
    }
  }

  lemma {:induction false} RunExtends(a: Reference, es: seq<Event>)
    requires Legal(a, es)
    ensures Extends(a, RefRun(a, es))
    decreases |es|
  {
    if es != [] {
      StepExtends(a, es[0]);
      RunExtends(RefStep(a, es[0]), es[1..]);
      var b, c := RefStep(a, es[0]), RefRun(a, es);
      hide RefStep, RefRun, Legal, Enabled;
      assert forall k :: 0 <= k < |a.snapshots| ==> c.snapshots[k] == b.snapshots[k] == a.snapshots[k];
    }
  }

  /**
   A backup stands for the vault it was taken from: whatever happens afterwards, a new vault with the same
   master key restores it and answers every request as the first vault did when the backup was taken. A
   vault with another master key rejects it.
   */
  lemma BackupRestores(w: World, a: Reference, v: nat, es: seq<Event>, master: Key, q: Request)
    requires Simulates(w, a) && v in a.holdings && Legal(RefStep(a, ExportFrom(v)), es)
    ensures StepDefined(w, ExportFrom(v))
    ensures var later := Run(Step(w, ExportFrom(v)), es);
            && |w.backups| < |later.backups|
            && var b := later.backups[|w.backups|];
            if master == a.holdings[v].master then
              && ImportResult(New(master), b) == Restored(|a.holdings[v].live|)
              && Decrypt(Import(New(master), b), q) == Decrypt(w.vaults[v], q)
            else
              ImportResult(New(master), b) == Rejected(AuthenticationFailed)
  {
    StepSimulates(w, a, ExportFrom(v));
    var a1 := RefStep(a, ExportFrom(v));
    RunSimulates(Step(w, ExportFrom(v)), a1, es);
    RunExtends(a1, es);
    AnswersAreOwed(w.vaults[v], a.holdings[v], a.origins, q);
    var later, a2 := Run(Step(w, ExportFrom(v)), es), RefRun(a1, es);
    var k, h := |w.backups|, a.holdings[v];
    assert a1.snapshots[k] == a2.snapshots[k] == Snapshot(h.master, h.live);
    RestoreAnswers(later.backups[k], a2.snapshots[k], a2.origins, master, q);
    OwedGrows(h.live, a, a2, q);
    hide Run, RefRun, Legal, Step, RefStep, Import, Decrypt, Owed;
  }

  lemma RestoreAnswers(b: Backup, s: Snapshot, origins: map<Id, Origin>, master: Key, q: Request)
    requires BackupKept(b, s, origins)
    ensures if master == s.master then
              ImportResult(New(master), b) == Restored(|s.live|) && Decrypt(Import(New(master), b), q) == Owed(s.live, origins, q)
            else ImportResult(New(master), b) == Rejected(AuthenticationFailed)
  {
    var h := Holding(master, {}, {});
    ImportKept(New(master), h, b, s, origins);
    hide ImportResult, Import, BackupKept;
    if master == s.master {
      AnswersAreOwed(Import(New(master), b), h.(known := h.known + s.live, live := h.live + s.live), origins, q);
      assert h.live + s.live == s.live;
    }
  }

  lemma OwedGrows(live: set<Id>, a: Reference, a': Reference, q: Request)
    requires Extends(a, a') && live <= a.origins.Keys
    ensures Owed(live, a.origins, q) == Owed(live, a'.origins, q)
  {
  }

  /** Rotation is invisible to every request, and no live record opens under an earlier key. */
  lemma RotationRetiresKeys(v: Vault, h: Holding, origins: map<Id, Origin>, newKey: Key, q: Request, id: Id, k: nat)
    requires VaultKept(v, h, origins) && newKey !in v.keys.Values
    requires id in h.live && k in v.keys
    ensures Decrypt(Rotate(v, newKey), q) == Decrypt(v, q)
    ensures id in Rotate(v, newKey).credentials
    ensures OpenRecord(Rotate(v, newKey).credentials[id], v.keys[k]) == None
    ensures OpenRecord(Rotate(v, newKey).credentials[id], newKey) == Some(origins[id].text)
  {
    RotateKept(v, h, origins, newKey);
    AnswersAreOwed(v, h, origins, q);
    AnswersAreOwed(Rotate(v, newKey), h, origins, q);
    hide Decrypt, Owed;
    assert v.keys[k] in v.keys.Values;
  }

  lemma ReferenceRevives(a: Reference, e: Event, id: Id)
    requires Enabled(a, e) && !e.Open? && id in a.holdings[e.v].known - a.holdings[e.v].live && id in a.origins
    ensures id in RefStep(a, e).holdings[e.v].known
    ensures id in RefStep(a, e).holdings[e.v].live <==>
              e.ImportInto? && id in a.snapshots[e.backup].live && a.snapshots[e.backup].master == a.holdings[e.v].master
  {
    hide IsNumericId;
  }

  predicate Revoked(v: Vault, id: Id) { id in v.credentials && v.credentials[id].revoked }

  lemma RevokedIs(v: Vault, h: Holding, origins: map<Id, Origin>, id: Id)
    requires VaultKept(v, h, origins)
    ensures Revoked(v, id) <==> id in h.known - h.live
    ensures Revoked(v, id) ==> id in origins
  {
    hide RecordKept, KeysKept;
  }

  /**
   In every reachable world, whatever operation comes next, a credential a vault has revoked stays revoked
   there unless the operation imports a backup that holds it, sealed under the vault's own master key.
   */
  lemma OnlyImportRevives(w: World, a: Reference, e: Event, id: Id)
    requires Simulates(w, a) && Enabled(a, e) && !e.Open? && Revoked(w.vaults[e.v], id)
    ensures StepDefined(w, e)
    ensures id in Step(w, e).vaults[e.v].credentials
    ensures !Revoked(Step(w, e).vaults[e.v], id) <==>
              e.ImportInto? && id in w.backups[e.backup].credentials
              && w.backups[e.backup].kek == w.vaults[e.v].keys[1]
  {
    StepSimulates(w, a, e);
    var (h, h') := (a.holdings[e.v], RefStep(a, e).holdings[e.v]);
    RevokedIs(w.vaults[e.v], h, a.origins, id);
    ReferenceRevives(a, e, id);
    RevokedIs(Step(w, e).vaults[e.v], h', RefStep(a, e).origins, id);
    hide Step, RefStep, RecordsKept, Live;
    assert KeysKept(w.vaults[e.v], h.master) && h'.known == Step(w, e).vaults[e.v].credentials.Keys;
    assert e.ImportInto? ==> BackupKept(w.backups[e.backup], a.snapshots[e.backup], a.origins);
  }

  /** So deletion is undone by any backup of the vault taken before it. */
  lemma DeletedComesBack(v: Vault, h: Holding, origins: map<Id, Origin>, q: Request)
    requires VaultKept(v, h, origins) && q.credential in h.live && q.tenant == origins[q.credential].tenant
    requires q.worker == Worker() && q.lease == Some(Lease(true, q.tenant))
    ensures var d := Delete(v, q.tenant, q.credential);
            && Decrypt(d, q) == Refused(RevokedOrMissing)
            && HasCurrentKey(d)
            && Decrypt(Import(d, Export(v)), q) == Granted(origins[q.credential].text)
  {
    var d, id := Delete(v, q.tenant, q.credential), q.credential;
    var r := v.credentials[id].(revoked := true, cipher := None, wrapped := None);
    RevokeKept(v, h, origins, id, r);
    ExportKept(v, h, origins);
    var g, s := h.(live := h.live - {id}), Snapshot(h.master, h.live);
    ImportKept(d, g, Export(v), s, origins);
    AnswersAreOwed(d, g, origins, q);
    AnswersAreOwed(Import(d, Export(v)), g.(known := g.known + s.live, live := g.live + s.live), origins, q);
    hide Export, Import, Decrypt, Worker, BackupKept;
  }

  /** Replacing revokes the credential even when the new identifier is refused, leaving the tenant without one. */
  lemma ReplaceRevokes(v: Vault, a: Reference, i: nat, tenant: string, text: string, id: Id, dek: Key, q: Request)
    requires i in a.holdings && VaultKept(v, a.holdings[i], a.origins) && id !in a.origins
    requires q.credential in a.holdings[i].live && a.origins[q.credential].tenant == tenant
    requires q.worker == Worker() && q.tenant == tenant && q.lease == Some(Lease(true, tenant))
    ensures var (h, r) := (a.holdings[i], Replace(v, tenant, q.credential, text, id, dek));
            && Decrypt(v, q) == Granted(a.origins[q.credential].text)
            && Decrypt(r, q) == Refused(RevokedOrMissing)
            && Live(r.credentials) == h.live - {q.credential} + (if Stores(tenant, text) then {id} else {})
  {
    var h, c := a.holdings[i], v.credentials[q.credential].(revoked := true);
    var revoked := v.(credentials := v.credentials[q.credential := c]);
    RevokeKept(v, h, a.origins, q.credential, c);
    StoreKept(revoked, a, h.(live := h.live - {q.credential}), i, tenant, text, id, dek);
    var a' := RefStore(a, i, h.(live := h.live - {q.credential}), tenant, text, id);
    AnswersAreOwed(v, h, a.origins, q);
    AnswersAreOwed(Store(revoked, tenant, text, id, dek), a'.holdings[i], a'.origins, q);
    hide Store, Decrypt, Worker, IsNumericId, Live, RecordsKept, KeysKept;
  }

  // ---- What each operation does to one vault ----

  /** Twelve digits at most, and one at least. */
  predicate IsIdentifier(text: string) {
    1 <= |text| && |text| < 13 && forall i :: 0 <= i < |text| ==> '0' <= text[i] <= '9'
  }

  /** Storing adds one record, of the tenant and live, that opens to the identifier under the key in use; or does nothing. */
  lemma StoreIff(v: Vault, tenant: string, text: string, id: Id, dek: Key)
    requires HasCurrentKey(v)
    ensures tenant == "" || !IsIdentifier(text) ==> Store(v, tenant, text, id, dek) == v
    ensures tenant != "" && IsIdentifier(text) ==>
              var s := Store(v, tenant, text, id, dek);
              && id in s.credentials && s == v.(credentials := v.credentials[id := s.credentials[id]])
              && s.credentials[id].tenant == tenant && !s.credentials[id].revoked && s.credentials[id].keyVersion == v.keyVersion
              && OpenRecord(s.credentials[id], v.keys[v.keyVersion]) == Some(text)
  {
    assert IsNumericId(text) <==> IsIdentifier(text);
  }

  /** Deleting leaves the tenant's record with nothing in it, and every other record alone. */
  lemma DeleteIff(v: Vault, tenant: string, id: Id)
    ensures id in v.credentials && v.credentials[id].tenant == tenant ==>
              var d := Delete(v, tenant, id);
              && id in d.credentials && d == v.(credentials := v.credentials[id := d.credentials[id]])
              && d.credentials[id].tenant == tenant && d.credentials[id].revoked
              && d.credentials[id].cipher == None && d.credentials[id].wrapped == None
    ensures id !in v.credentials || v.credentials[id].tenant != tenant ==> Delete(v, tenant, id) == v
  {
  }

  /** A kept vault grants exactly the text first stored, to the submission worker, on a valid lease of the credential's own tenant. */
  lemma GrantedIff(v: Vault, h: Holding, origins: map<Id, Origin>, q: Request, text: string)
    requires VaultKept(v, h, origins)
    ensures var stands := q.worker == "submission-worker" && q.lease.Some? && q.lease.value.valid && q.lease.value.tenant == q.tenant;
            var held := q.credential in v.credentials && !v.credentials[q.credential].revoked;
            var r := Decrypt(v, q);
            && (r == Granted(text) <==> stands && held && v.credentials[q.credential].tenant == q.tenant && origins[q.credential].text == text)
            && (r == Refused(WorkerIdentity) <==> q.worker != "submission-worker")
            && (r == Refused(InvalidLease) <==> q.worker == "submission-worker" && !stands)
            && (r == Refused(RevokedOrMissing) <==> stands && !held)
            && (r == Refused(CrossTenant) <==> stands && held && v.credentials[q.credential].tenant != q.tenant)
  {
    if q.credential in v.credentials { assert RecordKept(v.credentials[q.credential], v.keys, origins[q.credential]); }
  }

  // ---- The vault's own operations, in place ----

  /** Under rotation a live record is opened and sealed again; no cipher refuses. */
  lemma RotatedRecord(v: Vault, h: Holding, origins: map<Id, Origin>, newKey: Key, id: Id)
    requires VaultKept(v, h, origins) && id in v.credentials
    ensures var (r, next, keys) := (v.credentials[id], v.keyVersion + 1, v.keys[v.keyVersion + 1 := newKey]);
            if r.revoked || r.wrapped.None? then RotateRecord(r, keys, next) == r
            else
              && r.keyVersion in keys && keys[r.keyVersion] == v.keys[r.keyVersion]
              && var dek := Unwrap(r.wrapped.value, keys[r.keyVersion]);
                 && dek.Some?
                 && RotateRecord(r, keys, next) == r.(wrapped := Some(Wrap(dek.value, newKey, next)), keyVersion := next)
  {
  }

  /** Part of `added` has been set in `base`. */
  ghost predicate Merged(rs: map<Id, Record>, base: map<Id, Record>, added: map<Id, Record>, done: set<Id>) {
    && done <= added.Keys && rs.Keys == base.Keys + done
    && forall id <- rs :: rs[id] == if id in done then added[id] else base[id]
  }

  lemma MergeNone(base: map<Id, Record>, added: map<Id, Record>)
    ensures Merged(base, base, added, {})
  {
  }

  lemma MergeOne(rs: map<Id, Record>, base: map<Id, Record>, added: map<Id, Record>, done: set<Id>, id: Id)
    requires Merged(rs, base, added, done) && id in added
    ensures Merged(rs[id := added[id]], base, added, done + {id})
  {
  }

  lemma MergeAll(rs: map<Id, Record>, base: map<Id, Record>, added: map<Id, Record>)
    requires Merged(rs, base, added, added.Keys)
    ensures rs == base + added
  {
  }

  lemma ImportShape(v: Vault, h: Holding, b: Backup, s: Snapshot, origins: map<Id, Origin>)
    requires VaultKept(v, h, origins) && BackupKept(b, s, origins)
    ensures HasCurrentKey(v) && b.version in v.keys
    ensures ImportResult(v, b) == if b.kek != v.keys[b.version] then Rejected(AuthenticationFailed) else Restored(|Resealed(v, b).Keys|)
    ensures Import(v, b) == if b.kek != v.keys[b.version] then v else v.(credentials := v.credentials + Resealed(v, b))
    ensures b.kek == v.keys[b.version] ==> KeysKept(v, s.master) && Resealed(v, b).Keys <= b.credentials.Keys
  {
    assert Resealed(v, b).Keys == Accepted(v, b);
  }

  lemma RotatedIs(v: Vault, newKey: Key, rs: map<Id, Record>)
    requires rs.Keys == v.credentials.Keys
    requires var next := v.keyVersion + 1;
             forall id <- rs :: rs[id] == RotateRecord(v.credentials[id], v.keys[next := newKey], next)
    ensures Rotate(v, newKey) == Vault(v.keyVersion + 1, v.keys[v.keyVersion + 1 := newKey], rs)
  {
    assert Rotate(v, newKey).credentials == rs;
  }

  lemma ExportShape(v: Vault, h: Holding, origins: map<Id, Origin>)
    requires VaultKept(v, h, origins)
    ensures 1 in v.keys && BackupKept(Export(v), Snapshot(h.master, h.live), origins)
    ensures Export(v) == Backup(1, v.keys[1], Export(v).credentials) && Export(v).credentials.Keys <= v.credentials.Keys
  {
    ExportKept(v, h, origins);
  }

  lemma ExportedRecord(v: Vault, h: Holding, origins: map<Id, Origin>, id: Id)
    requires VaultKept(v, h, origins) && id in v.credentials
    ensures var c := v.credentials[id];
            if c.revoked || c.wrapped.None? || c.cipher.None? || c.keyVersion !in v.keys then id !in Export(v).credentials
            else
              var dek := Unwrap(c.wrapped.value, v.keys[c.keyVersion]);
              && id in Export(v).credentials && dek.Some?
              && Export(v).credentials[id] == c.(wrapped := Some(Wrap(dek.value, v.keys[1], 1)), keyVersion := 1)
  {
    assert RecordKept(v.credentials[id], v.keys, origins[id]);
  }

  lemma ResealedRecord(v: Vault, b: Backup, s: Snapshot, origins: map<Id, Origin>, id: Id)
    requires KeysKept(v, s.master) && BackupKept(b, s, origins) && id in b.credentials
    ensures var c := b.credentials[id];
            && id in Resealed(v, b) && !c.revoked && c.wrapped.Some? && c.cipher.Some? && c.keyVersion in v.keys
            && var dek := Unwrap(c.wrapped.value, v.keys[c.keyVersion]);
               && dek.Some?
               && Resealed(v, b)[id] == c.(wrapped := Some(Wrap(dek.value, v.keys[v.keyVersion], v.keyVersion)),
                                           keyVersion := v.keyVersion, revoked := false)
  {
    ResealedKept(v, b, s, origins);
  }

  datatype Outcome = Done(id: Id) | Failed(why: Refusal)

  class CredentialVault {
    var keyVersion: nat
    var keys: map<nat, Key>
    var credentials: map<Id, Record>

    ghost function State(): Vault
      reads this
    {
      Vault(keyVersion, keys, credentials)
    }

    ghost predicate Valid(h: Holding, origins: map<Id, Origin>)
      reads this
    {
      VaultKept(State(), h, origins)
    }

    constructor (master: Key)
      ensures State() == New(master)
    {
      keyVersion, keys, credentials := 1, map[1 := master], map[];
    }

    method StoreCredential(tenant: string, text: string, id: Id, dek: Key) returns (r: Outcome)
      requires HasCurrentKey(State())
      modifies this`credentials
      ensures State() == Store(old(State()), tenant, text, id, dek)
      ensures r == if Stores(tenant, text) then Done(id) else Failed(InvalidInput)
    {
      if tenant == "" || !IsNumericId(text) {
        return Failed(InvalidInput);
      }
      var wrapped := Wrap(dek, keys[keyVersion], keyVersion);
      credentials := credentials[id := Record(tenant, Some(wrapped), Some(Cipher(dek, text)), keyVersion, false)];
      return Done(id);
    }

    method ReplaceCredential(tenant: string, replaced: Id, text: string, id: Id, dek: Key) returns (r: Outcome)
      requires HasCurrentKey(State())
      modifies this`credentials
      ensures State() == Replace(old(State()), tenant, replaced, text, id, dek)
      ensures r == if !old(Owns(State(), tenant, replaced)) then Failed(NotFound)
                   else if Stores(tenant, text) then Done(id) else Failed(InvalidInput)
    {
      if replaced !in credentials || credentials[replaced].tenant != tenant {
        return Failed(NotFound);
      }
      credentials := credentials[replaced := credentials[replaced].(revoked := true)];
      r := StoreCredential(tenant, text, id, dek);
    }

    method DeleteCredential(tenant: string, id: Id) returns (r: Outcome)
      modifies this`credentials
      ensures State() == Delete(old(State()), tenant, id)
      ensures r == if old(Owns(State(), tenant, id)) then Done(id) else Failed(NotFound)
    {
      if id !in credentials || credentials[id].tenant != tenant {
        return Failed(NotFound);
      }
      credentials := credentials[id := credentials[id].(revoked := true, cipher := None, wrapped := None)];
      return Done(id);
    }

    /** The answer is the one the reference owes: no key, cipher or rotation shows in it. */
    method DecryptForSubmission(q: Request, ghost h: Holding, ghost origins: map<Id, Origin>) returns (r: Decrypted)
      requires Valid(h, origins)
      ensures r == Owed(h.live, origins, q)
    {
      AnswersAreOwed(State(), h, origins, q);
      if q.worker != Worker() {
        return Refused(WorkerIdentity);
      }
      if q.lease.None? || !q.lease.value.valid || q.lease.value.tenant != q.tenant {
        return Refused(InvalidLease);
      }
      if q.credential !in credentials || credentials[q.credential].revoked || credentials[q.credential].cipher.None? {
        return Refused(RevokedOrMissing);
      }
      var record := credentials[q.credential];
      if record.tenant != q.tenant {
        return Refused(CrossTenant);
      }
      if record.keyVersion !in keys {
        return Refused(KeyMissing);
      }
      var dek := Unwrap(record.wrapped.value, keys[record.keyVersion]);
      var text := OpenId(record.cipher.value, dek.value);
      return Granted(text.value);
    }

    method RotateKeys(newKey: Key, ghost h: Holding, ghost origins: map<Id, Origin>)
      requires Valid(h, origins)
      modifies this
      ensures State() == Rotate(old(State()), newKey)
      ensures Valid(h, origins)
    {
      hide VaultKept, RotateRecord, Rotate, Wrap;
      ghost var v := State();
      RotateKept(v, h, origins, newKey);
      var next := keyVersion + 1;
      keys := keys[next := newKey];
      var todo := credentials.Keys;
      while todo != {}
        invariant keyVersion == v.keyVersion && keys == v.keys[next := newKey]
        invariant todo <= credentials.Keys == v.credentials.Keys
        invariant forall id <- todo :: credentials[id] == v.credentials[id]
        invariant forall id <- credentials :: id !in todo ==> credentials[id] == RotateRecord(v.credentials[id], v.keys[next := newKey], next)
        decreases |todo|
      {
        var id :| id in todo;
        todo := todo - {id};
        var record := credentials[id];
        RotatedRecord(v, h, origins, newKey, id);
        if record.revoked || record.wrapped.None? {
          continue;
        }
        var dek := Unwrap(record.wrapped.value, keys[record.keyVersion]);
        credentials := credentials[id := record.(wrapped := Some(Wrap(dek.value, newKey, next)), keyVersion := next)];
      }
      keyVersion := next;
      RotatedIs(v, newKey, credentials);
    }

    method ExportEncryptedBackup(ghost h: Holding, ghost origins: map<Id, Origin>) returns (b: Backup)
      requires Valid(h, origins)
      ensures b == Export(State())
      ensures BackupKept(b, Snapshot(h.master, h.live), origins)
    {
      hide VaultKept, Export, BackupKept, Wrap, Merged, Unwrap;
      ghost var v := State();
      ExportShape(v, h, origins);
      ghost var all := Export(v).credentials;
      var portable: map<Id, Record> := map[];
      ghost var done: set<Id> := {};
      var todo := credentials.Keys;
      MergeNone(map[], all);
      while todo != {}
        invariant todo <= credentials.Keys
        invariant forall x :: x in done <==> x in all && x !in todo
        invariant Merged(portable, map[], all, done)
        decreases |todo|
      {
        var id :| id in todo;
        todo := todo - {id};
        var c := credentials[id];
        ExportedRecord(v, h, origins, id);
        if c.revoked || c.wrapped.None? || c.cipher.None? || c.keyVersion !in keys {
          continue;
        }
        var dek := Unwrap(c.wrapped.value, keys[c.keyVersion]);
        MergeOne(portable, map[], all, done, id);
        portable := portable[id := c.(wrapped := Some(Wrap(dek.value, keys[1], 1)), keyVersion := 1)];
        done := done + {id};
      }
      assert done == all.Keys;
      MergeAll(portable, map[], all);
      return Backup(1, keys[1], portable);
    }

    method ImportEncryptedBackup(b: Backup, ghost h: Holding, ghost s: Snapshot, ghost origins: map<Id, Origin>)
      returns (r: Imported)
      requires Valid(h, origins) && BackupKept(b, s, origins)
      modifies this`credentials
      ensures State() == Import(old(State()), b)
      ensures r == ImportResult(old(State()), b)
    {
      hide VaultKept, BackupKept, Resealed, RecordsKept, Accepted, Wrap, KeysKept, Live, Import, ImportResult, Merged, Unwrap;
      ghost var v := State();
      ImportShape(v, h, b, s, origins);
      ghost var all := Resealed(v, b);
      if b.version !in keys {
        return Rejected(KeyMissing);
      }
      if b.kek != keys[b.version] {
        return Rejected(AuthenticationFailed);
      }
      var done: set<Id>, todo := {}, b.credentials.Keys;
      var count := 0;
      MergeNone(v.credentials, all);
      while todo != {}
        invariant todo <= b.credentials.Keys
        invariant forall x :: x in done <==> x in all && x !in todo
        invariant count == |done|
        invariant Merged(credentials, v.credentials, all, done)
        decreases |todo|
      {
        var id :| id in todo;
        todo := todo - {id};
        var c := b.credentials[id];
        ResealedRecord(v, b, s, origins, id);
        if c.revoked || c.wrapped.None? || c.cipher.None? || c.keyVersion !in keys {
          continue;
        }
        var dek := Unwrap(c.wrapped.value, keys[c.keyVersion]);
        var record := c.(wrapped := Some(Wrap(dek.value, keys[keyVersion], keyVersion)), keyVersion := keyVersion, revoked := false);
        MergeOne(credentials, v.credentials, all, done, id);
        credentials := credentials[id := record];
        done := done + {id};
        count := count + 1;
      }
      assert done == all.Keys;
      MergeAll(credentials, v.credentials, all);
      return Restored(count);
    }
  }
}
