/** The upload routes' two loops: storing each received file in Google
    Drive, one request after another, and turning the ids Drive assigns into
    the public download links that are appended to the client's row. */
module DriveLinks {
  import opened Schema

  /** Every stored link is this prefix followed by the Drive file id. */
  const DrivePrefix: string := "https://drive.google.com/uc?id="

  /** The link names the file it was built from. */
  function DriveUrl(id: FileId): (u: Url)
    ensures FileIdOf(u) == Some(id)
  {
    var u := DrivePrefix + id;
    assert u[|DrivePrefix|..] == id;
    u
  }

  /** The file id a link names, if it is a Drive download link. */
  function FileIdOf(url: Url): Option<FileId>
  {
    if DrivePrefix <= url then Some(url[|DrivePrefix|..]) else None
  }

  /** And a link that names an id is exactly the link built from it. */
  lemma DriveUrlOfFileId(url: Url, id: FileId)
    requires FileIdOf(url) == Some(id)
    ensures DriveUrl(id) == url
  {
    assert url == url[..|DrivePrefix|] + url[|DrivePrefix|..];
  }

  /** Distinct files get distinct links. */
  lemma DriveUrlInjective(a: FileId, b: FileId)
    requires DriveUrl(a) == DriveUrl(b)
    ensures a == b
  {
    assert FileIdOf(DriveUrl(a)) == Some(a);
  }

  /** One link per id, in the same order. */
  function DriveUrls(ids: seq<FileId>): (urls: seq<Url>)
    ensures |urls| == |ids|
    ensures forall i | 0 <= i < |ids| :: FileIdOf(urls[i]) == Some(ids[i])
  {
    if ids == [] then []
    else
      [DriveUrl(ids[0])] + DriveUrls(ids[1..])
  }

  /** The links of a list name its ids and nothing else: the list can be
      recovered from them. */
  lemma DriveUrlsInjective(a: seq<FileId>, b: seq<FileId>)
    requires DriveUrls(a) == DriveUrls(b)
    ensures a == b
  {
    assert |a| == |b|;
    forall i | 0 <= i < |a| ensures a[i] == b[i] {
      assert FileIdOf(DriveUrls(a)[i]) == Some(a[i]);
      assert FileIdOf(DriveUrls(b)[i]) == Some(b[i]);
    }
  }

  lemma {:induction false} DriveUrlsAppend(ids: seq<FileId>, id: FileId)
    ensures DriveUrls(ids + [id]) == DriveUrls(ids) + [DriveUrl(id)]
  {
    if ids == [] {
      assert ids + [id] == [id];
    } else {
      assert (ids + [id])[1..] == ids[1..] + [id];
      DriveUrlsAppend(ids[1..], id);
    }
  }

  /** Links of two batches are the links of the batches run together. */
  lemma {:induction false} DriveUrlsConcat(a: seq<FileId>, b: seq<FileId>)
    ensures DriveUrls(a + b) == DriveUrls(a) + DriveUrls(b)
  {
    if a == [] {
      assert a + b == b;
    } else {
      assert (a + b)[1..] == a[1..] + b;
      DriveUrlsConcat(a[1..], b);
    }
  }

  // ---------------------------------------------------------------------
  // Storing the files

  /** What one `drive.files.create` request gives back: the new file's
      metadata, or a rejected request. */
  datatype DriveResponse = Created(id: FileId) | DriveError

  predicate AllCreated(responses: seq<DriveResponse>)
  {
    forall i | 0 <= i < |responses| :: responses[i].Created?
  }

  /** The ids of the files stored before the first rejected request; when
      none is rejected, the ids of all of them, in upload order. */
  function StoredIds(responses: seq<DriveResponse>): (ids: seq<FileId>)
    ensures |ids| <= |responses|
    ensures forall i | 0 <= i < |ids| :: responses[i] == Created(ids[i])
    ensures |ids| == |responses| <==> AllCreated(responses)
    ensures |ids| < |responses| ==> responses[|ids|].DriveError?
  {
    if responses == [] || responses[0].DriveError? then []
    else [responses[0].id] + StoredIds(responses[1..])
  }

  lemma {:induction false} StoredIdsAppend(responses: seq<DriveResponse>, id: FileId)
    requires AllCreated(responses)
    ensures StoredIds(responses + [Created(id)]) == StoredIds(responses) + [id]
  {
    if responses != [] {
      assert (responses + [Created(id)])[1..] == responses[1..] + [Created(id)];
      StoredIdsAppend(responses[1..], id);
    }
  }

  /** The upload loop: one Drive request per received file, in order. A
      rejected request throws out of the loop, so the files before it stay
      stored and the rest are never sent. `ok` tells whether every request
      succeeded; `stored` holds the ids of the files Drive kept. */
  method UploadAll(responses: seq<DriveResponse>) returns (ok: bool, stored: seq<FileId>)
    ensures ok <==> AllCreated(responses)
    ensures stored == StoredIds(responses)
    ensures ok ==> |stored| == |responses|
  {
    stored := [];
    var i := 0;
    while i < |responses|
      invariant 0 <= i <= |responses|
      invariant AllCreated(responses[..i])
      invariant stored == StoredIds(responses[..i])
    {
      if responses[i].DriveError? {
        assert StoredIds(responses) == StoredIds(responses[..i]) by {
          StoredIdsPrefix(responses, i);
        }
        return false, stored;
      }
      StoredIdsAppend(responses[..i], responses[i].id);
      assert responses[..i + 1] == responses[..i] + [Created(responses[i].id)];
      stored := stored + [responses[i].id];
      i := i + 1;
    }
    assert responses[..i] == responses;
    ok := true;
  }

  /** Everything stored before a rejected request is all that is stored. */
  lemma {:induction false} StoredIdsPrefix(responses: seq<DriveResponse>, i: nat)
    requires i < |responses| && responses[i].DriveError? && AllCreated(responses[..i])
    ensures StoredIds(responses) == StoredIds(responses[..i])
  {
    if i > 0 {
      assert responses[..i][1..] == responses[1..][..i - 1];
      StoredIdsPrefix(responses[1..], i - 1);
    }
  }

  /** The link-building loop: one link per stored file, in upload order. */
  method FileUrls(ids: seq<FileId>) returns (urls: seq<Url>)
    ensures urls == DriveUrls(ids)
  {
    urls := [];
    var i := 0;
    while i < |ids|
      invariant 0 <= i <= |ids|
      invariant urls == DriveUrls(ids[..i])
    {
      DriveUrlsAppend(ids[..i], ids[i]);
      assert ids[..i + 1] == ids[..i] + [ids[i]];
      urls := urls + [DriveUrl(ids[i])];
      i := i + 1;
    }
    assert ids[..i] == ids;
  }
}
