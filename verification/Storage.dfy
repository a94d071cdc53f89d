/** The controlled storage root: complete candidates, atomic installation, idempotent removal. */
module Storage {
  import opened Wrappers
  import opened External
  import opened Csv
  import opened Protocol

  datatype StorageError = FileTooLarge | FileExists | FileMissing | OsError

  datatype CandidateFile = CandidateFile(uuid: nat, size: nat, digest: Bytes)

  /** The size of the candidate when the copying loop stops. */
  function Copied(total: nat, failure: Option<nat>, size: nat): nat
    decreases total - size
  {
    if (failure.Some? && size >= failure.value) || size >= total then size
    else
      var next := size + Min(READ_CHUNK_BYTES, total - size);
      if next > MAX_CSV_BYTES then size else Copied(total, failure, next)
  }

  predicate CopyFails(total: nat, failure: Option<nat>) {
    total > MAX_CSV_BYTES || (failure.Some? && total >= failure.value)
  }

  class LocalDatasetStorage {
    var files: map<FileName, Bytes>

    constructor ()
      ensures files == map[]
    {
      files := map[];
    }

    /**
     Copies `source` chunk by chunk into a new file. Reading or writing raises once
     `failure` bytes have been copied, and unlinking the partial file raises when `stuck`.
     */
    method WriteCandidate(w: World, uuid: nat, source: Bytes, failure: Option<nat>, stuck: bool)
      returns (r: Result<CandidateFile, StorageError>)
      modifies this`files
      ensures r.Ok? <==> Candidate(uuid) !in old(files) && !CopyFails(|source|, failure)
      ensures r.Ok? ==>
        && files == old(files)[Candidate(uuid) := source]
        && r.value == CandidateFile(uuid, |source|, w.digest(source))
      ensures r == Err(FileExists) <==> Candidate(uuid) in old(files)
      ensures r == Err(FileExists) ==> files == old(files)
      ensures r.Err? && !stuck ==> files == old(files)
      ensures r.Err? && r.error != FileExists && stuck ==>
        var n := Copied(|source|, failure, 0);
        n <= |source| && n <= MAX_CSV_BYTES && files == old(files)[Candidate(uuid) := source[..n]]
      ensures r.Err? && failure.None? && Candidate(uuid) !in old(files) ==> r.error == FileTooLarge
    {
      if Candidate(uuid) in files {
        return Err(FileExists);
      }
      var digested: Bytes := [];
      var size := 0;
      files := files[Candidate(uuid) := []];
      var raised: Option<StorageError> := None;
      while true
        invariant size <= |source| && size <= MAX_CSV_BYTES
        invariant digested == source[..size]
        invariant Copied(|source|, failure, size) == Copied(|source|, failure, 0)
        invariant files == old(files)[Candidate(uuid) := source[..size]]
        decreases |source| - size
      {
        if failure.Some? && size >= failure.value {
          raised := Some(OsError);
          break;
        }
        var chunk := source[size..size + Min(READ_CHUNK_BYTES, |source| - size)];
        if chunk == [] {
          break;
        }
        if size + |chunk| > MAX_CSV_BYTES {
          raised := Some(FileTooLarge);
          break;
        }
        assert source[..size] + chunk == source[..size + |chunk|];
        size := size + |chunk|;
        digested := digested + chunk;
        files := files[Candidate(uuid) := files[Candidate(uuid)] + chunk];
      }
      if raised.Some? {
        if !stuck {
          files := Without(files, Candidate(uuid));
        }
        return Err(raised.value);
      }
      assert source[..size] == source;
      return Ok(CandidateFile(uuid, size, w.digest(digested)));
    }

    /** Renames a complete candidate into place, replacing whatever is there, then restricts its mode. */
    method Install(candidate: CandidateFile, key: nat, renameRaises: bool, chmodRaises: bool)
      returns (r: Result<(), StorageError>)
      modifies this`files
      ensures r.Ok? <==> Candidate(candidate.uuid) in old(files) && !renameRaises && !chmodRaises
      ensures Candidate(candidate.uuid) in old(files) && !renameRaises ==>
        files == Without(old(files), Candidate(candidate.uuid))[Stored(key) := old(files)[Candidate(candidate.uuid)]]
      ensures Candidate(candidate.uuid) !in old(files) || renameRaises ==> files == old(files)
    {
      if Candidate(candidate.uuid) !in files {
        return Err(FileMissing);
      }
      if renameRaises {
        return Err(OsError);
      }
      var content := files[Candidate(candidate.uuid)];
      files := Without(files, Candidate(candidate.uuid))[Stored(key) := content];
      if chmodRaises {
        return Err(OsError);
      }
      return Ok(());
    }

    method DiscardCandidate(candidate: CandidateFile, raises: bool) returns (r: Result<(), StorageError>)
      modifies this`files
      ensures r.Ok? <==> !raises
      ensures files == if raises then old(files) else Without(old(files), Candidate(candidate.uuid))
    {
      if raises {
        return Err(OsError);
      }
      files := Without(files, Candidate(candidate.uuid));
      return Ok(());
    }

    /** Removing a missing file is not an error. */
    method Remove(key: nat, raises: bool) returns (r: Result<(), StorageError>)
      modifies this`files
      ensures r.Ok? <==> !raises
      ensures files == if raises then old(files) else Without(old(files), Stored(key))
    {
      if raises {
        return Err(OsError);
      }
      files := Without(files, Stored(key));
      return Ok(());
    }

    method OpenBinary(key: nat) returns (r: Result<Bytes, StorageError>)
      ensures r == if Stored(key) in files then Ok(files[Stored(key)]) else Err(FileMissing)
    {
      if Stored(key) in files {
        return Ok(files[Stored(key)]);
      }
      return Err(FileMissing);
    }
  }
}
