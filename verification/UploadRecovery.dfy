/** Upload recovery as it runs: one row or one file at a time. However far it
    gets, what is left still recovers to the same store. */
module UploadRecovery {
  import opened Basics
  import opened Uploads
  import opened UploadRuns
  import C = Chunks

  // ---- single steps of recovery are absorbed ----

  ghost function DropRecord(s: Store, key: ChunkKey): Store {
    s.(chunks := s.chunks - {key})
  }

  ghost function DropFile(s: Store, key: ChunkKey): Store {
    s.(files := s.files - {key})
  }

  ghost function WithStatus(s: Store, id: nat, status: Status): Store
    requires id in s.uploads
  {
    s.(uploads := s.uploads[id := s.uploads[id].(status := status)])
  }

  lemma SameStatusAlways(chunks: map<ChunkKey, ChunkRecord>, u: Upload, status: Status, id: nat)
    ensures StatusFor(chunks, u.(status := status), id) == StatusFor(chunks, u, id)
  {
    StatusOfSameLayout(chunks, u.(status := status), u, id);
  }

  lemma SameRecovered(c: Setup, s: Store, t: Store)
    requires s.uploads == t.uploads && s.audits == t.audits
    requires ValidChunks(c, s) == ValidChunks(c, t)
    requires forall k: ChunkKey :: Active(s, k.upload) && k in ValidChunks(c, s) ==>
      (k in s.files <==> k in t.files) && (k in s.files ==> s.files[k] == t.files[k])
    requires forall id :: Active(s, id) ==> (id in s.dirs <==> id in t.dirs)
    ensures Recovered(c, s) == Recovered(c, t)
  {
    assert Recovered(c, s).files == Recovered(c, t).files;
    assert Recovered(c, s).dirs == Recovered(c, t).dirs;
    assert Recovered(c, s).uploads == Recovered(c, t).uploads;
  }

  /** Deleting the record of a chunk whose file does not verify changes nothing about what recovery leaves. */
  lemma DroppingRecordAbsorbed(c: Setup, s: Store, key: ChunkKey)
    requires key in s.chunks && Active(s, key.upload) && !Verifies(c, s.files, key, s.chunks[key])
    ensures Recovered(c, DropRecord(s, key)) == Recovered(c, s)
  {
    assert ValidChunks(c, DropRecord(s, key)) == ValidChunks(c, s);
    SameRecovered(c, DropRecord(s, key), s);
  }

  /** Nor does removing a file that has no record, or belongs to no active upload. */
  lemma DroppingFileAbsorbed(c: Setup, s: Store, key: ChunkKey)
    requires key !in s.chunks || !Active(s, key.upload)
    ensures Recovered(c, DropFile(s, key)) == Recovered(c, s)
  {
    assert ValidChunks(c, DropFile(s, key)) == ValidChunks(c, s);
    SameRecovered(c, DropFile(s, key), s);
  }

  /** Nor does removing the directory of an upload that is not active. */
  lemma DroppingDirAbsorbed(c: Setup, s: Store, id: nat)
    requires !Active(s, id)
    ensures Recovered(c, WithoutDir(s, id)) == Recovered(c, s)
  {
    assert ValidChunks(c, WithoutDir(s, id)) == ValidChunks(c, s);
    SameRecovered(c, WithoutDir(s, id), s);
  }

  /** Nor does rewriting the status of an active upload. */
  lemma StatusAbsorbed(c: Setup, s: Store, id: nat, status: Status)
    requires Active(s, id) && status != Completed
    ensures Recovered(c, WithStatus(s, id, status)) == Recovered(c, s)
  {
    var t := WithStatus(s, id, status);
    assert forall other :: Active(t, other) <==> Active(s, other);
    assert ValidChunks(c, t) == ValidChunks(c, s);
    SameStatusAlways(ValidChunks(c, s), s.uploads[id], status, id);
    assert Recovered(c, t).uploads == Recovered(c, s).uploads;
    assert Recovered(c, t).files == Recovered(c, s).files;
    assert Recovered(c, t).dirs == Recovered(c, s).dirs;
  }

  // ---- progress ----

  // Everything recovery has to do about one identifier is done.
  ghost predicate Settled(c: Setup, s: Store, id: nat) {
    if Active(s, id) then
      && (forall k :: k in s.chunks && k.upload == id ==> Verifies(c, s.files, k, s.chunks[k]))
      && (forall k :: k in s.files && k.upload == id ==> k in s.chunks)
      && s.uploads[id].status == StatusFor(s.chunks, s.uploads[id], id)
    else id !in s.dirs
  }

  // A change that concerns one identifier only, and neither starts nor ends an upload.
  ghost predicate OnlyAbout(s: Store, t: Store, id: nat) {
    && t.audits == s.audits && t.uploads.Keys == s.uploads.Keys
    && (forall other :: other in s.uploads && other != id ==> t.uploads[other] == s.uploads[other])
    && (Active(t, id) <==> Active(s, id))
    && (forall k: ChunkKey :: k.upload != id ==>
          (k in t.chunks <==> k in s.chunks) && (k in s.chunks ==> t.chunks[k] == s.chunks[k]))
    && (forall k: ChunkKey :: k.upload != id ==>
          (k in t.files <==> k in s.files) && (k in s.files ==> t.files[k] == s.files[k]))
    && (forall other :: other != id ==> (other in t.dirs <==> other in s.dirs))
    && t.dirs <= s.dirs
  }

  lemma SameIndexes(s: map<ChunkKey, ChunkRecord>, t: map<ChunkKey, ChunkRecord>, u: Upload, id: nat)
    requires forall k: ChunkKey :: k.upload == id ==> (k in t <==> k in s)
    ensures StatusFor(t, u, id) == StatusFor(s, u, id)
  {
    forall a ensures IndexesOf(t, id, a) == IndexesOf(s, id, a) {
      forall i ensures i in IndexesOf(t, id, a) <==> i in IndexesOf(s, id, a) {
        if i in IndexesOf(t, id, a) { assert ChunkKey(id, a, i) in t; assert ChunkKey(id, a, i) in s; }
        if i in IndexesOf(s, id, a) { assert ChunkKey(id, a, i) in s; assert ChunkKey(id, a, i) in t; }
      }
    }
  }

  lemma StaysSettled(c: Setup, s: Store, t: Store, id: nat, other: nat)
    requires OnlyAbout(s, t, id) && other != id && Settled(c, s, other)
    ensures Settled(c, t, other)
  {
    if Active(t, other) { SameIndexes(s.chunks, t.chunks, t.uploads[other], other); }
  }

  lemma AllSettled(c: Setup, s: Store)
    requires FilesInDirs(s) && forall id :: id in s.uploads || id in s.dirs ==> Settled(c, s, id)
    ensures Quiescent(c, s)
  {
    forall k | k in s.files ensures Active(s, k.upload) && k in s.chunks { assert Settled(c, s, k.upload); }
    forall k | k in s.chunks && Active(s, k.upload)
      ensures Verifies(c, s.files, k, s.chunks[k])
    {
      assert Settled(c, s, k.upload);
    }
    forall id | id in s.dirs ensures Active(s, id) { assert Settled(c, s, id); }
  }

  // ---- the procedure ----

  class UploadStore {
    var uploads: map<nat, Upload>
    var audits: map<nat, Audit>
    var chunks: map<ChunkKey, ChunkRecord>
    var files: map<ChunkKey, Bytes>
    var dirs: set<nat>

    ghost function Value(): Store
      reads this
    {
      Store(uploads, audits, chunks, files, dirs)
    }

    constructor (uploads: map<nat, Upload>, audits: map<nat, Audit>, chunks: map<ChunkKey, ChunkRecord>,
                 files: map<ChunkKey, Bytes>, dirs: set<nat>)
      ensures Value() == Store(uploads, audits, chunks, files, dirs)
    {
      this.uploads, this.audits, this.chunks, this.files, this.dirs := uploads, audits, chunks, files, dirs;
    }

    method RemoveUploadDir(c: Setup, id: nat)
      requires FilesInDirs(Value()) && !Active(Value(), id)
      modifies this`files, this`dirs
      ensures FilesInDirs(Value()) && OnlyAbout(old(Value()), Value(), id) && Settled(c, Value(), id)
      ensures Recovered(c, Value()) == Recovered(c, old(Value()))
    {
      DroppingDirAbsorbed(c, Value(), id);
      files := map k | k in files && k.upload != id :: files[k];
      dirs := dirs - {id};
      assert Value() == WithoutDir(old(Value()), id);
    }

    // Checks every accepted record of one active upload against its file.
    method CheckRecords(c: Setup, id: nat)
      requires FilesInDirs(Value()) && Active(Value(), id)
      modifies this`chunks, this`files
      ensures FilesInDirs(Value()) && OnlyAbout(old(Value()), Value(), id)
      ensures forall k :: k in chunks && k.upload == id ==> Verifies(c, files, k, chunks[k])
      ensures Recovered(c, Value()) == Recovered(c, old(Value()))
    {
      var remaining := set k | k in chunks && k.upload == id;
      while remaining != {}
        invariant FilesInDirs(Value()) && OnlyAbout(old(Value()), Value(), id)
        invariant forall k :: k in remaining ==> k in chunks && k.upload == id
        invariant forall k :: k in chunks && k.upload == id && k !in remaining ==> Verifies(c, files, k, chunks[k])
        invariant Recovered(c, Value()) == Recovered(c, old(Value()))
      {
        var key :| key in remaining;
        remaining := remaining - {key};
        if !Verifies(c, files, key, chunks[key]) {
          DroppingRecordAbsorbed(c, Value(), key);
          ghost var before := Value();
          chunks := chunks - {key};
          assert Value() == DropRecord(before, key);
          DroppingFileAbsorbed(c, Value(), key);
          ghost var between := Value();
          files := files - {key};
          assert Value() == DropFile(between, key);
        }
      }
    }

    // Removes the files of one active upload that no record names.
    method RemoveStrayFiles(c: Setup, id: nat)
      requires FilesInDirs(Value()) && Active(Value(), id)
      requires forall k :: k in chunks && k.upload == id ==> Verifies(c, files, k, chunks[k])
      modifies this`files
      ensures FilesInDirs(Value()) && OnlyAbout(old(Value()), Value(), id)
      ensures forall k :: k in chunks && k.upload == id ==> Verifies(c, files, k, chunks[k])
      ensures forall k :: k in files && k.upload == id ==> k in chunks
      ensures Recovered(c, Value()) == Recovered(c, old(Value()))
    {
      var remaining := set k | k in files && k.upload == id;
      while remaining != {}
        invariant FilesInDirs(Value()) && OnlyAbout(old(Value()), Value(), id)
        invariant forall k :: k in remaining ==> k in files && k.upload == id
        invariant forall k :: k in chunks && k.upload == id ==> Verifies(c, files, k, chunks[k])
        invariant forall k :: k in files && k.upload == id && k !in remaining ==> k in chunks
        invariant Recovered(c, Value()) == Recovered(c, old(Value()))
      {
        var key :| key in remaining;
        remaining := remaining - {key};
        if key !in chunks {
          DroppingFileAbsorbed(c, Value(), key);
          ghost var before := Value();
          files := files - {key};
          assert Value() == DropFile(before, key);
        }
      }
    }

    method UploadIsComplete(id: nat) returns (complete: bool)
      requires id in uploads
      ensures complete <==> AllAccepted(chunks, uploads[id], id)
    {
      var u := uploads[id];
      for a := 0 to |u.sizes|
        invariant forall b :: 0 <= b < a ==>
          CountOf(u, b).Some? && IndexesOf(chunks, id, b) == C.Range(CountOf(u, b).value)
      {
        var count := CountOf(u, a);
        if count.None? { return false; }
        var indexes := IndexesOf(chunks, id, a);
        var n, least, greatest := C.Aggregates(indexes);
        C.CountMinMaxIsExact(indexes, count.value);
        if n != count.value || (count.value == 0 && (least.Some? || greatest.Some?)) ||
           (count.value > 0 && (least != Some(0) || greatest != Some(count.value - 1)))
        {
          return false;
        }
      }
      complete := true;
    }

    method RecoverActiveUpload(c: Setup, id: nat)
      requires FilesInDirs(Value()) && Active(Value(), id)
      modifies this
      ensures FilesInDirs(Value()) && OnlyAbout(old(Value()), Value(), id) && Settled(c, Value(), id)
      ensures Recovered(c, Value()) == Recovered(c, old(Value()))
    {
      CheckRecords(c, id);
      RemoveStrayFiles(c, id);
      var complete := UploadIsComplete(id);
      var status := if complete then ArtifactUploaded else Created;
      StatusAbsorbed(c, Value(), id, status);
      SameStatusAlways(chunks, uploads[id], status, id);
      ghost var before := Value();
      uploads := uploads[id := uploads[id].(status := status)];
      assert Value() == WithStatus(before, id, status);
    }

    /** The whole recovery leaves exactly the recovered store. At every point on the way, and so after a crash
        at any of them, what is left recovers to that same store. */
    method RecoverUploads(c: Setup)
      requires FilesInDirs(Value()) && IdsDisjoint(Value())
      modifies this
      ensures Value() == Recovered(c, old(Value()))
    {
      RemoveUnknownDirectories(c);
      RecoverKnown(c);
      RemoveAudited(c);
      AllSettled(c, Value());
      QuiescentIsFixed(c, Value());
    }

    method RemoveUnknownDirectories(c: Setup)
      requires FilesInDirs(Value())
      modifies this`files, this`dirs
      ensures FilesInDirs(Value()) && uploads == old(uploads) && audits == old(audits)
      ensures forall id :: id in dirs ==> id in uploads || id in audits
      ensures Recovered(c, Value()) == Recovered(c, old(Value()))
    {
      var remaining := dirs;
      while remaining != {}
        invariant FilesInDirs(Value())
        invariant forall id :: id in dirs && id !in remaining ==> id in uploads || id in audits
        invariant Recovered(c, Value()) == Recovered(c, old(Value()))
      {
        var id :| id in remaining;
        remaining := remaining - {id};
        if id !in uploads && id !in audits { RemoveUploadDir(c, id); }
      }
    }

    method RecoverKnown(c: Setup)
      requires FilesInDirs(Value()) && forall id :: id in dirs ==> id in uploads || id in audits
      modifies this
      ensures FilesInDirs(Value()) && audits == old(audits) && dirs <= old(dirs) && uploads.Keys == old(uploads).Keys
      ensures forall id :: id in uploads ==> Settled(c, Value(), id)
      ensures Recovered(c, Value()) == Recovered(c, old(Value()))
    {
      var remaining := uploads.Keys;
      while remaining != {}
        invariant remaining <= uploads.Keys && uploads.Keys == old(uploads).Keys
        invariant FilesInDirs(Value()) && audits == old(audits) && dirs <= old(dirs)
        invariant forall id :: id in uploads && id !in remaining ==> Settled(c, Value(), id)
        invariant Recovered(c, Value()) == Recovered(c, old(Value()))
      {
        var id :| id in remaining;
        remaining := remaining - {id};
        ghost var before := Value();
        if uploads[id].status == Completed { RemoveUploadDir(c, id); } else { RecoverActiveUpload(c, id); }
        forall other | other in uploads && other !in remaining ensures Settled(c, Value(), other) {
          if other != id { StaysSettled(c, before, Value(), id, other); }
        }
      }
    }

    method RemoveAudited(c: Setup)
      requires FilesInDirs(Value()) && IdsDisjoint(Value()) && forall id :: id in dirs ==> id in uploads || id in audits
      requires forall id :: id in uploads ==> Settled(c, Value(), id)
      modifies this`files, this`dirs
      ensures FilesInDirs(Value()) && forall id :: id in uploads || id in dirs ==> Settled(c, Value(), id)
      ensures Recovered(c, Value()) == Recovered(c, old(Value()))
    {
      var remaining := audits.Keys;
      while remaining != {}
        invariant remaining <= audits.Keys && FilesInDirs(Value()) && dirs <= old(dirs)
        invariant forall id :: id in uploads ==> Settled(c, Value(), id)
        invariant IdsDisjoint(Value()) && audits == old(audits)
        invariant forall id :: id in audits && id !in remaining ==> Settled(c, Value(), id)
        invariant Recovered(c, Value()) == Recovered(c, old(Value()))
      {
        var id :| id in remaining;
        remaining := remaining - {id};
        ghost var before := Value();
        RemoveUploadDir(c, id);
        forall other | Settled(c, before, other) && other != id ensures Settled(c, Value(), other) {
          StaysSettled(c, before, Value(), id, other);
        }
      }
    }
  }
}
