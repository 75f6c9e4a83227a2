/** A stored resume's file, found through its row by id alone. */
module ResumeContent {
  import opened Wrappers
  import opened BlobStorage
  import opened Schema
  import opened Tenancy
  import opened UserContext
  import ReadById
  import RowSecurity
  import Uploads

  /** A row of the resumes table. */
  function ResumeRow(row: Uploads.ResumeRow): Row {
    Row(row.owner, map[Users := row.owner],
        map["blob_storage_path" := Text(row.path), "mime_type" := Text(row.file.mimeType),
            "is_active" := Flag(row.active)])
  }

  datatype ContentError = NoSuchResume | BlobMissing | ReadFailed

  datatype StoredFile = StoredFile(buffer: Bytes, mimeType: string)

  /** What a resume's row leads to in the container. */
  function FileOf(found: Option<Row>, blobs: Blobs): Result<StoredFile, ContentError> {
    match found
    case None => Err(NoSuchResume)
    case Some(row) =>
      var path := TextIn(row, "blob_storage_path");
      if path in blobs then Ok(StoredFile(blobs[path], TextIn(row, "mime_type"))) else Err(BlobMissing)
  }

  class ResumeReader {
    const pool: Pool
    const store: BlobStore

    constructor (pool: Pool, store: BlobStore)
      ensures this.pool == pool && this.store == store
    {
      this.pool := pool;
      this.store := store;
    }

    /** Nothing here names the user but the transaction's scope. Another user's
        resume is answered like none at all, whatever goes on beside; with no other
        transaction of the user about, the answer is the user's own file exactly if
        the user has the resume and its file is there. */
    method Content(userId: string, resumeId: string, env: Environment) returns (r: Result<StoredFile, ContentError>)
      requires pool.Valid() && userId != ""
      modifies pool
      ensures pool.Valid() && old(pool.history) <= pool.history
      ensures Runs(old(pool.state), pool.history[|old(pool.history)|..])
      ensures pool.state == Exec(old(pool.state), pool.history[|old(pool.history)|..])
      ensures r.Ok? ==> Seen(pool.state, userId, Key(Resumes, resumeId))
      ensures
        var resume, born := Key(Resumes, resumeId), old(pool.state.born);
        resume in born && born[resume] != userId ==> r == Err(NoSuchResume) || r == Err(ReadFailed)
      ensures
        var own := ReadById.Own(old(pool.state).db, userId, Key(Resumes, resumeId));
        env.alone ==> r == Err(ReadFailed) || r == FileOf(own, store.blobs)
      ensures Faultless(env) ==> r != Err(ReadFailed)
      ensures env.alone ==>
                RowSecurity.Part(pool.state.db, userId) == old(RowSecurity.Part(pool.state.db, userId))
    {
      var found := ReadById.Read(pool, userId, Key(Resumes, resumeId), env);
      if found.Err? {
        return Err(ReadFailed);
      }
      if found.value == None {
        return Err(NoSuchResume);
      }
      var content := store.Download(TextIn(found.value.value, "blob_storage_path"));
      var mimeType := TextIn(found.value.value, "mime_type");
      r := if content == None then Err(BlobMissing) else Ok(StoredFile(content.value, mimeType));
    }
  }

  /** A stored row with its file leads its owner to the file and nobody else anywhere. */
  lemma RowLeadsToItsFile(db: Db, blobs: Blobs, userId: string, resumeId: string, row: Uploads.ResumeRow)
    requires Key(Resumes, resumeId) in db && db[Key(Resumes, resumeId)] == ResumeRow(row)
    requires row.path in blobs && blobs[row.path] == row.file.content
    ensures FileOf(ReadById.Own(db, userId, Key(Resumes, resumeId)), blobs) ==
            if row.owner == userId then Ok(StoredFile(row.file.content, row.file.mimeType)) else Err(NoSuchResume)
  {
  }
}
