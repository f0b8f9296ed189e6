/** The backup looking at an archive the protocol maintains: the exclusive permit
    makes the server quiet, and which states it can then copy. */
module BackupView {
  import opened Basics
  import Catalog
  import Protocol
  import ProtocolSafety
  import Runs
  import Accounting
  import ByteHistory
  import Maintenance
  import B = Backup
  import I = Integrity

  // ---- the permit ----

  // Process p of the server works for the request or the bootstrap at place owner(p) of the gate, whose shared lock is
  // held as long as it works. The backup itself runs none.
  ghost predicate Admitted(server: Protocol.State, gate: Maintenance.State, owner: nat -> nat, backup: nat) {
    forall p :: 0 <= p < |server.procs| && !server.procs[p].Idle? ==>
      owner(p) < |gate.procs| && owner(p) != backup && Maintenance.HoldsShared(gate.procs[owner(p)])
  }

  ghost predicate Quiet(server: Protocol.State) {
    forall p :: 0 <= p < |server.procs| ==> server.procs[p].Idle?
  }

  /** Whoever holds the exclusive permit in a reachable state of the gate finds no completion, deletion, collection
      or scan under way. */
  lemma ExclusiveMeansQuiet(states: seq<Maintenance.State>, steps: seq<Maintenance.Step>, k: nat, backup: nat,
                            server: Protocol.State, owner: nat -> nat)
    requires Maintenance.Run(states, steps) && k < |states| && backup < |states[k].procs|
    requires Maintenance.HoldsExclusive(states[k].procs[backup]) && Admitted(server, states[k], owner, backup)
    ensures Quiet(server)
  {
    forall p | 0 <= p < |server.procs| ensures server.procs[p].Idle? {
      if !server.procs[p].Idle? {
        Maintenance.ExclusivePermitIsAlone(states, steps, k, backup, owner(p));
        assert false;
      }
    }
  }

  // ---- rows describe contents ----

  // Some content has this row's digest and size.
  ghost predicate Describes(c: Catalog.Setup, d: Digest, row: Catalog.Blob) {
    exists bytes :: c.codec.sha256(bytes) == d && |bytes| == row.size
  }

  ghost predicate RowsDescribe(c: Catalog.Setup, t: Catalog.Tables) {
    forall d :: d in t.blobs ==> Describes(c, d, t.blobs[d])
  }

  lemma RowFrame(c: Catalog.Setup, t: Catalog.Tables, x: Catalog.Transaction, d: Digest)
    requires Catalog.Allowed(c, t, x) && d in Catalog.Apply(c, t, x).blobs
    ensures d in t.blobs ==> Catalog.Apply(c, t, x).blobs[d].size == t.blobs[d].size
    ensures d !in t.blobs ==> x.Win? && d in Catalog.StoredDigests(t.uploads[x.upload].manifest)
    ensures d !in t.blobs ==>
      Catalog.Apply(c, t, x).blobs[d].size == Catalog.Declared(t.uploads[x.upload].manifest, d).storedSize
  {
  }

  lemma DeclaredContent(c: Catalog.Setup, job: Protocol.Job, d: Digest) returns (bytes: Bytes)
    requires Protocol.Verified(c, job) && d in Catalog.StoredDigests(job.manifest)
    ensures c.codec.sha256(bytes) == d && |bytes| == Catalog.Declared(job.manifest, d).storedSize
  {
    var i := Catalog.FirstWith(job.manifest.artifacts, d);
    assert Protocol.ArtifactVerified(c.codec, job.manifest.artifacts[i], job.staged[i]);
    bytes := job.staged[i];
  }

  lemma NewRowDescribes(c: Catalog.Setup, states: seq<Protocol.State>, steps: seq<Runs.Step>, k: nat, d: Digest)
    requires ProtocolSafety.CollisionFree(c) && Runs.Run(c, states, steps) && k < |steps|
    requires d !in states[k].tables.blobs && d in states[k + 1].tables.blobs
    ensures Describes(c, d, states[k + 1].tables.blobs[d])
  {
    Runs.CommittedStep(c, states, steps, k);
    RowFrame(c, states[k].tables, Runs.Committed(c, states, steps, k), d);
    ByteHistory.WinnerAt(c, states, steps, k);
    var bytes := DeclaredContent(c, states[k].procs[steps[k].actor].job, d);
  }

  lemma {:induction false} RowsAlwaysDescribe(c: Catalog.Setup, states: seq<Protocol.State>, steps: seq<Runs.Step>,
                                              k: nat)
    requires ProtocolSafety.CollisionFree(c) && Runs.Run(c, states, steps) && k < |states|
    ensures RowsDescribe(c, states[k].tables)
  {
    if k > 0 {
      RowsAlwaysDescribe(c, states, steps, k - 1);
      forall d | d in states[k].tables.blobs ensures Describes(c, d, states[k].tables.blobs[d]) {
        if d in states[k - 1].tables.blobs {
          Runs.CommittedStep(c, states, steps, k - 1);
          RowFrame(c, states[k - 1].tables, Runs.Committed(c, states, steps, k - 1), d);
          assert Describes(c, d, states[k - 1].tables.blobs[d]);
        } else {
          NewRowDescribes(c, states, steps, k - 1, d);
        }
      }
    }
  }

  // ---- what the backup sees ----

  ghost predicate ReadsAlike(c: Catalog.Setup, codecs: B.Codecs, text: Digest -> string) {
    (forall d :: I.StorageDigest(text(d))) && forall bytes :: codecs.hex(bytes) == text(c.codec.sha256(bytes))
  }

  // Distinct digests of the state print differently; the store lists the state's rows and counts its active uploads.
  ghost predicate Shows(t: Catalog.Tables, store: B.Store, text: Digest -> string) {
    && (forall d, e :: d in t.blobs && e in t.blobs && text(d) == text(e) ==> d == e)
    && store.rows.Keys == (set d | d in t.blobs :: text(d))
    && (forall d :: d in t.blobs ==> text(d) in store.rows && store.rows[text(d)] == t.blobs[d].size)
    && (store.activeUploads == 0 <==> forall u :: u in t.uploads ==> !t.uploads[u].Active?)
  }

  // The blob directory holds the files of the state, and none for a row whose file is missing.
  ghost predicate ShowsFiles(t: Catalog.Tables, files: map<Digest, Bytes>, root: I.Node, text: Digest -> string) {
    forall d :: d in t.blobs ==>
      I.BlobNode(root, text(d)) == if d in files then Some(I.Regular(files[d])) else None
  }

  lemma CopyableIff(c: Catalog.Setup, s: Protocol.State, codecs: B.Codecs, root: I.Node, text: Digest -> string,
                    d: Digest)
    requires ProtocolSafety.CollisionFree(c) && ProtocolSafety.FilesGenuine(c, s.files) && RowsDescribe(c, s.tables)
    requires ReadsAlike(c, codecs, text) && ShowsFiles(s.tables, s.files, root, text) && d in s.tables.blobs
    ensures B.Copyable(codecs, root, B.Row(text(d), s.tables.blobs[d].size)) <==> d in s.files
  {
    if d in s.files {
      assert Describes(c, d, s.tables.blobs[d]);
      var bytes :| c.codec.sha256(bytes) == d && |bytes| == s.tables.blobs[d].size;
      assert c.codec.sha256(s.files[d]) == c.codec.sha256(bytes);
      assert codecs.hex(s.files[d]) == text(d);
    }
  }

  lemma RowOf(t: Catalog.Tables, store: B.Store, rows: seq<B.Row>, text: Digest -> string, i: nat) returns (d: Digest)
    requires Shows(t, store, text) && B.QueriedRows(store, rows) && i < |rows|
    ensures d in t.blobs && rows[i] == B.Row(text(d), t.blobs[d].size)
  {
    assert rows[i].digest in store.rows.Keys;
    d :| d in t.blobs && text(d) == rows[i].digest;
  }

  /** A backup of a reachable state succeeds, by the condition of `Backup.CreateLocked`, exactly when no upload is
      active and every row has its file. A row that lost its file, as an uncommitted collection leaves it, makes it
      refuse. */
  lemma BackupSucceedsIff(c: Catalog.Setup, states: seq<Protocol.State>, steps: seq<Runs.Step>, k: nat,
                          codecs: B.Codecs, store: B.Store, rows: seq<B.Row>, root: I.Node, text: Digest -> string)
    requires ProtocolSafety.CollisionFree(c) && Runs.Run(c, states, steps) && k < |states|
    requires ReadsAlike(c, codecs, text) && Shows(states[k].tables, store, text)
    requires ShowsFiles(states[k].tables, states[k].files, root, text) && B.QueriedRows(store, rows)
    ensures (store.activeUploads == 0 && forall i :: 0 <= i < |rows| ==> B.Copyable(codecs, root, rows[i])) <==>
            && (forall u :: u in states[k].tables.uploads ==> !states[k].tables.uploads[u].Active?)
            && states[k].tables.blobs.Keys <= states[k].files.Keys
  {
    var s := states[k];
    Runs.ReachableInv(c, states, steps, k);
    RowsAlwaysDescribe(c, states, steps, k);
    if s.tables.blobs.Keys <= s.files.Keys {
      forall i: nat | i < |rows| ensures B.Copyable(codecs, root, rows[i]) {
        var d := RowOf(s.tables, store, rows, text, i);
        CopyableIff(c, s, codecs, root, text, d);
      }
    }
    if forall i :: 0 <= i < |rows| ==> B.Copyable(codecs, root, rows[i]) {
      forall d | d in s.tables.blobs ensures d in s.files { FileOfRow(c, s, codecs, store, rows, root, text, d); }
    }
  }

  lemma FileOfRow(c: Catalog.Setup, s: Protocol.State, codecs: B.Codecs, store: B.Store, rows: seq<B.Row>, root: I.Node,
                  text: Digest -> string, d: Digest)
    requires ProtocolSafety.CollisionFree(c) && ProtocolSafety.FilesGenuine(c, s.files) && RowsDescribe(c, s.tables)
    requires ReadsAlike(c, codecs, text) && Shows(s.tables, store, text) && ShowsFiles(s.tables, s.files, root, text)
    requires B.QueriedRows(store, rows) && forall i :: 0 <= i < |rows| ==> B.Copyable(codecs, root, rows[i])
    requires d in s.tables.blobs
    ensures d in s.files
  {
    var i :| 0 <= i < |rows| && rows[i].digest == text(d);
    var e := RowOf(s.tables, store, rows, text, i);
    CopyableIff(c, s, codecs, root, text, d);
  }

  /** In a clean run a quiet server without active uploads can always be backed up. */
  lemma CleanQuietServerIsBackedUp(c: Catalog.Setup, states: seq<Protocol.State>, steps: seq<Runs.Step>, k: nat,
                                   codecs: B.Codecs, store: B.Store, rows: seq<B.Row>, root: I.Node,
                                   text: Digest -> string)
    requires ProtocolSafety.CollisionFree(c) && Accounting.CleanRun(c, states, steps) && k < |states| &&
      Quiet(states[k])
    requires ReadsAlike(c, codecs, text) && Shows(states[k].tables, store, text)
    requires ShowsFiles(states[k].tables, states[k].files, root, text) && B.QueriedRows(store, rows)
    requires store.activeUploads == 0
    ensures forall i :: 0 <= i < |rows| ==> B.Copyable(codecs, root, rows[i])
  {
    Accounting.QuietFilesMatchRows(c, states, steps, k);
    BackupSucceedsIff(c, states, steps, k, codecs, store, rows, root, text);
  }

  /** A directory created from a reachable state holds, for every artifact live in it, the bytes the archive holds:
      of the declared size and digest, decoding to the declared original. */
  lemma BackupHoldsLiveArtifacts(c: Catalog.Setup, states: seq<Protocol.State>, steps: seq<Runs.Step>, k: nat,
                                 codecs: B.Codecs, store: B.Store, rows: seq<B.Row>, root: I.Node,
                                 text: Digest -> string,
                                 now: string, application: string, dir: I.Node, shards: map<string, I.Node>,
                                 files: map<string, Bytes>, id: nat, i: nat)
    requires ProtocolSafety.CollisionFree(c) && Runs.Run(c, states, steps) && k < |states|
    requires Shows(states[k].tables, store, text) && ShowsFiles(states[k].tables, states[k].files, root, text)
    requires B.Created(codecs, store, rows, root, now, application, dir, shards, files)
    requires Catalog.Live(states[k].tables, id) && i < |states[k].tables.snapshots[id].manifest.artifacts|
    ensures var a := states[k].tables.snapshots[id].manifest.artifacts[i];
      && text(a.stored) in files && B.RegularAs(B.TreeBlob(shards, text(a.stored)), files[text(a.stored)])
      && Protocol.ArtifactVerified(c.codec, a, files[text(a.stored)])
  {
    Runs.LiveArtifactsAreDurable(c, states, steps, k, id, i);
    var a := states[k].tables.snapshots[id].manifest.artifacts[i];
    assert text(a.stored) in store.rows;
    assert B.RegularAs(I.BlobNode(root, text(a.stored)), files[text(a.stored)]);
  }
}
