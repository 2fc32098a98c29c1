/** The three views of a staged entry agree: what a thread stages, the file it writes, and what that
    file files on the disk. */
module StagedFiles {
  import opened Basics
  import opened Model
  import opened CacheSpec
  import opened Rereading
  import opened Service
  import opened Manifests
  import opened ManifestFiles
  import Publication
  import Together

  /** _execute writes a manifest that stages its answer, and that commit may publish. */
  lemma ResultIsStaged(cd: Codec, j: Job, path: Path, answer: Answer, x: ResultExtras, accessed: Time, expires: Time,
                       files: map<Text, Bytes>, payload: nat)
    requires Datable(accessed) && Datable(expires)
    requires Inverse(cd) && CleanResult(WrittenResult(cd, ResultRecordOf(j, answer), x, accessed, expires))
    requires ManifestFiles.Others(x.provenance)
    requires RESULT_CSV in files && files[RESULT_CSV] == answer.csv
    ensures |ResultNames()| == 15
    ensures var r := ResultRecordOf(j, answer); var bytes := ResultFile(WrittenResult(cd, r, x, accessed, expires));
      && StagesResult(j, answer, r, Entry(ReadFile(cd, bytes), files, payload))
      && Publication.Tells(Reader(cd), bytes, Together.FilingOf(Q(QCommit(j, path, answer))).value.record)
  {
    ResultFileRead(cd, ResultRecordOf(j, answer), x, accessed, expires);
  }

  /** And _ingest_source one that stages its data file. */
  lemma SourceIsStaged(cd: Codec, u: Upload, lock: LockId, path: Path, schema: Digest, file: Text, data: Bytes,
                       x: SourceExtras,
                       accessed: Time, expires: Time, files: map<Text, Bytes>, payload: nat)
    requires Datable(accessed) && Datable(expires)
    requires Inverse(cd) && CleanSource(WrittenSource(cd, SourceRecordOf(u, schema, file, data), x, accessed, expires))
    requires file in files && files[file] == data
    ensures |SourceNames()| == 14
    ensures var r := SourceRecordOf(u, schema, file, data); var bytes :=
        SourceFile(WrittenSource(cd, r, x, accessed, expires));
      && StagesSource(u, schema, file, data, r, Entry(ReadFile(cd, bytes), files, payload))
      && Publication.Tells(Reader(cd), bytes,
                           Together.FilingOf(I(ICommit(u, lock, path, schema, file, data))).value.record)
  {
    SourceFileRead(cd, SourceRecordOf(u, schema, file, data), x, accessed, expires);
  }
}
