/**
 Attachments uploaded in chunks that may be repeated, retried or reordered, and images read
 back in base 64 pieces.
 */
module Attachments {
  import opened Base64
  import opened Utf8
  import opened Wrappers

  type Id = string

  const MAX_ATTACHMENT_BYTES := 20 * 1024 * 1024
  const MAX_CHUNK_BYTES := 512 * 1024
  const MAX_ENCODED := (MAX_CHUNK_BYTES + 2) / 3 * 4
  const MAX_SAFE_INTEGER := 0x1F_FFFF_FFFF_FFFF

  datatype UploadError = InvalidChunk | InvalidChunkSize | NoSuchFile | RetryMismatch | OutOfOrder

  type Files = map<Id, Bytes>

  // ---------------------------------------------------------------- one chunk

  datatype Upload = Upload(id: Id, offset: int, size: int, data: string)

  predicate IsValid(u: Upload) {
    && 0 <= u.offset <= MAX_SAFE_INTEGER && 0 <= u.size <= MAX_ATTACHMENT_BYTES
    && |u.data| <= MAX_ENCODED && IsBase64(u.data)
  }

  predicate Fits(u: Upload) {
    IsValid(u) && |Decode(u.data)| <= MAX_CHUNK_BYTES && u.offset + |Decode(u.data)| <= u.size
  }

  /** What is wrong with a chunk, given the bytes the file has when it is opened. */
  function Problem(u: Upload, file: Option<Bytes>): Option<UploadError> {
    if !IsValid(u) then Some(InvalidChunk)
    else if !Fits(u) then Some(InvalidChunkSize)
    else if file.None? && u.offset != 0 then Some(NoSuchFile)
    else
      var bytes := Decode(u.data);
      var existing := if file.Some? then file.value else [];
      if |existing| == u.offset then None
      else if |existing| < u.offset + |bytes| then Some(OutOfOrder)
      else if existing[u.offset..u.offset + |bytes|] != bytes then Some(RetryMismatch)
      else None
  }

  function FileOf(files: Files, id: Id): Option<Bytes> {
    if id in files then Some(files[id]) else None
  }

  /** The files after a chunk: only an accepted chunk at the end of its file adds to it. */
  function After(files: Files, u: Upload): Files {
    if !Fits(u) || Problem(u, FileOf(files, u.id)) == Some(NoSuchFile) then files
    else
      var existing := if u.id in files then files[u.id] else [];
      files[u.id := if |existing| == u.offset then existing + Decode(u.data) else existing]
  }

  /** The file of an attachment has the announced size. */
  predicate IsComplete(files: Files, id: Id, size: int) {
    id in files && |files[id]| == size
  }

  // ---------------------------------------------------------------- what a session shows

  datatype Kind = Image | Audio | File

  /** An attachment as a command or a block of a session names it. */
  datatype Attachment = Attachment(id: Id, kind: Kind, size: nat)

  datatype ReadError = UnknownSession | ImageNotFound | InvalidOffset | Incomplete

  /** The first attachment of a session with an id. */
  function FindAttachment(shown: seq<Attachment>, id: Id): (found: Option<Attachment>)
    ensures found.Some? ==> found.value in shown && found.value.id == id
    ensures found.None? ==> forall a :: a in shown ==> a.id != id
  {
    if shown == [] then None
    else if shown[0].id == id then Some(shown[0])
    else FindAttachment(shown[1..], id)
  }

  /** What is wrong with a read of an image; `session` holds the attachments of its blocks. */
  function ReadProblem(files: Files, session: Option<seq<Attachment>>, id: Id, offset: int): Option<ReadError> {
    if session.None? then Some(UnknownSession)
    else
      var found := FindAttachment(session.value, id);
      if found.None? || !found.value.kind.Image? then Some(ImageNotFound)
      else if !(0 <= offset <= MAX_SAFE_INTEGER) || offset > found.value.size then Some(InvalidOffset)
      else if !IsComplete(files, id, found.value.size) then Some(Incomplete)
      else None
  }

  /** Where the piece of an image of this size ends that begins at an offset. */
  function PieceEnd(offset: nat, size: nat): (end: nat)
    requires offset <= size
    ensures offset <= end <= size && (offset < size ==> offset < end) && (end < size ==> (end - offset) % 3 == 0)
  {
    offset + if 3 * (MAX_CHUNK_BYTES / 3) < size - offset then 3 * (MAX_CHUNK_BYTES / 3) else size - offset
  }

  class AttachmentStore {
    var files: Files

    constructor ()
      ensures files == map[]
    {
      files := map[];
    }

    method WriteChunk(u: Upload) returns (end: Result<int, UploadError>)
      modifies this
      ensures files == After(old(files), u)
      ensures var problem := Problem(u, FileOf(old(files), u.id));
              end == if problem.Some? then Err(problem.value) else Ok(u.offset + |Decode(u.data)|)
    {
      if !(0 <= u.offset <= MAX_SAFE_INTEGER) || !(0 <= u.size <= MAX_ATTACHMENT_BYTES)
         || |u.data| > MAX_ENCODED || !IsBase64(u.data) {
        return Err(InvalidChunk);
      }
      var bytes := Decode(u.data);
      if |bytes| > MAX_CHUNK_BYTES || u.offset + |bytes| > u.size { return Err(InvalidChunkSize); }
      if u.id !in files {
        if u.offset != 0 { return Err(NoSuchFile); }
        files := files[u.id := []];
      }
      var length := |files[u.id]|;
      if length == u.offset {
        files := files[u.id := files[u.id] + bytes];
      } else if length >= u.offset + |bytes| {
        if files[u.id][u.offset..u.offset + |bytes|] != bytes { return Err(RetryMismatch); }
      } else {
        return Err(OutOfOrder);
      }
      return Ok(u.offset + |bytes|);
    }

    /** Checks the attachments a command names, in order; the first incomplete one refuses it. */
    method ResolveAttachments(refs: seq<Attachment>) returns (refused: Option<Id>)
      ensures refused.None? <==> forall ref :: ref in refs ==> IsComplete(files, ref.id, ref.size)
      ensures refused.Some? ==> exists k :: && 0 <= k < |refs| && refs[k].id == refused.value
                                            && !IsComplete(files, refs[k].id, refs[k].size)
                                            && forall j :: 0 <= j < k ==> IsComplete(files, refs[j].id, refs[j].size)
    {
      for k := 0 to |refs|
        invariant forall j :: 0 <= j < k ==> IsComplete(files, refs[j].id, refs[j].size)
      {
        if refs[k].id !in files || |files[refs[k].id]| != refs[k].size { return Some(refs[k].id); }
      }
      return None;
    }

    /** One piece of an image that the session shows. Every piece but the last has whole groups of
        three bytes. */
    method ReadChunk(session: Option<seq<Attachment>>, id: Id, offset: int)
      returns (piece: Result<(string, int), ReadError>)
      ensures var problem := ReadProblem(files, session, id, offset);
              piece.Err? <==> problem.Some?
      ensures piece.Err? ==> ReadProblem(files, session, id, offset) == Some(piece.error)
      ensures piece.Ok? ==>
                var end, size := piece.value.1, |files[id]|;
                && offset <= end <= size && piece.value.0 == Encode(files[id][offset..end])
                && (offset < size ==> offset < end)
                && (end < size ==> (end - offset) % 3 == 0)
    {
      if session.None? { return Err(UnknownSession); }
      var found := FindAttachment(session.value, id);
      if found.None? || !found.value.kind.Image? { return Err(ImageNotFound); }
      var size := found.value.size;
      if !(0 <= offset <= MAX_SAFE_INTEGER) || offset > size { return Err(InvalidOffset); }
      if id !in files || |files[id]| != size { return Err(Incomplete); }
      var end := PieceEnd(offset, size);
      return Ok((Encode(files[id][offset..end]), end));
    }

    /** Whatever others upload, in order. */
    method WriteAll(uploads: seq<Upload>)
      modifies this
      ensures files == AfterAll(old(files), uploads)
    {
      for k := 0 to |uploads|
        invariant files == AfterAll(old(files), uploads[..k])
      {
        assert uploads[..k + 1][..k] == uploads[..k];
        var end := WriteChunk(uploads[k]);
      }
      assert uploads[..|uploads|] == uploads;
    }

    /** The client's loop over an image of its session, with uploads of any kind before each of its
        reads. It succeeds exactly when every read of it is answered, which is when the file is
        complete at the last one, and then the joined pieces are the encoding of that whole file,
        and decode to it. */
    method Download(shown: seq<Attachment>, image: Attachment, others: nat -> seq<Upload>)
      returns (data: Option<string>, ghost rounds: nat)
      requires FindAttachment(shown, image.id) == Some(image) && image.kind.Image? && image.size <= MAX_ATTACHMENT_BYTES
      modifies this
      ensures files == AfterRounds(old(files), others, rounds) && (rounds == 0 <==> image.size == 0)
      ensures data.Some? <==> image.size == 0 || IsComplete(files, image.id, image.size)
      ensures data.Some? && image.size > 0 ==>
                data.value == Encode(files[image.id]) && IsBase64(data.value) && Decode(data.value) == files[image.id]
    {
      var text := "";
      var offset, turn := 0, 0;
      rounds := 0;
      while offset < image.size
        invariant 0 <= offset <= image.size && rounds == turn && (offset == 0 <==> turn == 0)
        invariant files == AfterRounds(old(files), others, turn)
        invariant offset == 0 ==> text == ""
        invariant offset > 0 ==> IsComplete(files, image.id, image.size) && Joins(files[image.id], text, offset)
      {
        ghost var before := files;
        WriteAll(others(turn));
        turn, rounds := turn + 1, rounds + 1;
        var piece := ReadChunk(Some(shown), image.id, offset);
        if piece.Err? { return None, rounds; }
        CompleteStays(before, others(turn - 1), image.id, image.size);
        JoinNext(files[image.id], text, offset, piece.value.1);
        text := text + piece.value.0;
        offset := piece.value.1;
      }
      if image.size > 0 {
        assert files[image.id][..image.size] == files[image.id];
        RoundTrip(files[image.id]);
      }
      return Some(text), rounds;
    }
  }

  /** Uploads of any kind, some before each of a number of reads. */
  function AfterRounds(files: Files, others: nat -> seq<Upload>, rounds: nat): Files {
    if rounds == 0 then files else AfterAll(AfterRounds(files, others, rounds - 1), others(rounds - 1))
  }

  /** A file that is complete before and after some uploads is the same file. */
  lemma CompleteStays(files: Files, uploads: seq<Upload>, id: Id, size: int)
    requires IsComplete(AfterAll(files, uploads), id, size)
    ensures IsComplete(files, id, size) ==> AfterAll(files, uploads)[id] == files[id]
  {
    FilesOnlyGrow(files, uploads);
  }

  /** The pieces so far are the encoding of the beginning, which has whole groups unless it is all. */
  ghost predicate Joins(file: Bytes, text: string, offset: int) {
    && 0 <= offset <= |file| && text == Encode(file[..offset])
    && (offset < |file| ==> offset % 3 == 0)
  }

  lemma JoinNext(file: Bytes, text: string, offset: int, end: int)
    requires (offset == 0 && text == "") || Joins(file, text, offset)
    requires 0 <= offset < end <= |file| && (end < |file| ==> (end - offset) % 3 == 0)
    ensures Joins(file, text + Encode(file[offset..end]), end)
  {
    var left, right := file[..offset], file[offset..end];
    assert left + right == file[..end];
    assert text == Encode(left) by {
      if offset == 0 { assert left == []; }
    }
    EncodingsJoin(left, right);
    if end < |file| { WholeGroupsAdd(offset, end); }
  }

  lemma WholeGroupsAdd(offset: int, end: int)
    requires offset % 3 == 0 && (end - offset) % 3 == 0
    ensures end % 3 == 0
  {
  }

  // ---------------------------------------------------------------- whole uploads

  function AfterAll(files: Files, uploads: seq<Upload>): Files {
    if uploads == [] then files else After(AfterAll(files, uploads[..|uploads| - 1]), uploads[|uploads| - 1])
  }

  ghost predicate Grows(before: Files, after: Files) {
    forall id :: id in before ==> id in after && before[id] <= after[id]
  }

  ghost predicate Bounded(files: Files) {
    forall id :: id in files ==> |files[id]| <= MAX_ATTACHMENT_BYTES
  }

  lemma ChunkAppends(files: Files, u: Upload)
    ensures Grows(files, After(files, u)) && (Bounded(files) ==> Bounded(After(files, u)))
  {
  }

  /** Whatever chunks arrive, repeated or in any order, stored files only grow at their end and
      stay within 20 MiB. */
  lemma {:induction false} FilesOnlyGrow(files: Files, uploads: seq<Upload>)
    ensures Grows(files, AfterAll(files, uploads)) && (Bounded(files) ==> Bounded(AfterAll(files, uploads)))
  {
    if uploads != [] {
      FilesOnlyGrow(files, uploads[..|uploads| - 1]);
      ChunkAppends(AfterAll(files, uploads[..|uploads| - 1]), uploads[|uploads| - 1]);
    }
  }

  lemma AcceptedIsThere(files: Files, u: Upload)
    requires Problem(u, FileOf(files, u.id)).None?
    ensures var bytes, file := Decode(u.data), After(files, u);
            && 0 <= u.offset && u.id in file && u.offset + |bytes| <= |file[u.id]|
            && file[u.id][u.offset..u.offset + |bytes|] == bytes
  {
    var bytes, existing := Decode(u.data), if u.id in files then files[u.id] else [];
    if |existing| == u.offset { assert (existing + bytes)[u.offset..u.offset + |bytes|] == bytes; }
  }

  lemma SliceStays(file: Bytes, longer: Bytes, start: nat, end: nat)
    requires file <= longer && start <= end <= |file|
    ensures longer[start..end] == file[start..end]
  {
    assert longer[..|file|] == file;
  }

  /** A chunk that was accepted is in the file at its offset, then and for ever. */
  lemma AcceptedBytesStay(files: Files, u: Upload, later: seq<Upload>)
    requires Problem(u, FileOf(files, u.id)).None?
    ensures var bytes, file := Decode(u.data), AfterAll(After(files, u), later);
            && 0 <= u.offset && u.id in file && u.offset + |bytes| <= |file[u.id]|
            && file[u.id][u.offset..u.offset + |bytes|] == bytes
  {
    ChunkAppends(files, u);
    AcceptedIsThere(files, u);
    FilesOnlyGrow(After(files, u), later);
    SliceStays(After(files, u)[u.id], AfterAll(After(files, u), later)[u.id], u.offset, u.offset + |Decode(u.data)|);
  }

  /** The chunk is a slice of the content it is meant for. */
  predicate IsSlice(u: Upload, content: Bytes) {
    && 0 <= u.offset && IsBase64(u.data) && u.offset + |Decode(u.data)| <= |content|
    && Decode(u.data) == content[u.offset..u.offset + |Decode(u.data)|]
  }

  ghost predicate Accepted(files: Files, uploads: seq<Upload>, k: int) {
    0 <= k < |uploads| && Problem(uploads[k], FileOf(AfterAll(files, uploads[..k]), uploads[k].id)).None?
  }

  lemma PrefixGrows(file: Bytes, content: Bytes, u: Upload)
    requires file <= content && IsSlice(u, content) && |file| == u.offset
    ensures file + Decode(u.data) <= content
  {
    var end := u.offset + |Decode(u.data)|;
    assert content[..end] == content[..u.offset] + content[u.offset..end];
  }

  /** If the accepted chunks for an id are slices of one content, then the stored file is the
      beginning of that content, so it passes as complete if and only if it is the content. */
  lemma {:induction false} UploadIsFaithful(uploads: seq<Upload>, id: Id, content: Bytes)
    requires forall k :: Accepted(map[], uploads, k) && uploads[k].id == id ==> IsSlice(uploads[k], content)
    ensures var files := AfterAll(map[], uploads);
            && (id in files ==> files[id] <= content)
            && (IsComplete(files, id, |content|) <==> id in files && files[id] == content)
  {
    if uploads != [] {
      var n := |uploads| - 1;
      var before := uploads[..n];
      forall k | Accepted(map[], before, k) && before[k].id == id ensures IsSlice(before[k], content) {
        assert before[..k] == uploads[..k];
        assert Accepted(map[], uploads, k);
      }
      UploadIsFaithful(before, id, content);
      var files := AfterAll(map[], before);
      var u := uploads[n];
      if Problem(u, FileOf(files, u.id)).None? {
        assert Accepted(map[], uploads, n);
      }
      if u.id == id && Fits(u) && |if id in files then files[id] else []| == u.offset {
        PrefixGrows(if id in files then files[id] else [], content, u);
      }
    }
  }
}
