/** The object store that holds the rendered page files
    (src/providers/storage.ts): uploads under a generated key, new versions
    under an existing key, and deletions. The store is the map from key to
    object; the network outcome of each `send` is a parameter. */
module Storage {
  import opened Wrappers
  import opened Types
  import opened Errors

  /** `MimeTypeEnum`: the content type of each page type. */
  function GetContentType(t: PageType): (m: string)
    ensures PageTypeOfContentType(m) == Some(t)
  {
    match t
    case JPEG => "image/jpeg"
    case PDF => "application/pdf"
    case PNG => "image/png"
    case WEBP => "image/webp"
  }

  /** Reads a content type back as the page type it stands for. */
  function PageTypeOfContentType(m: string): Option<PageType> {
    if m == "image/jpeg" then Some(JPEG)
    else if m == "application/pdf" then Some(PDF)
    else if m == "image/png" then Some(PNG)
    else if m == "image/webp" then Some(WEBP)
    else None
  }

  /** Different page types are stored under different content types. */
  lemma ContentTypeInjective(t1: PageType, t2: PageType)
    ensures GetContentType(t1) == GetContentType(t2) <==> t1 == t2
  {
    if GetContentType(t1) == GetContentType(t2) {
      assert Some(t1) == PageTypeOfContentType(GetContentType(t1)) == Some(t2);
    }
  }

  type Bytes = seq<bv8>

  /** An object as the store keeps it. */
  datatype StoredObject = StoredObject(body: Bytes, contentType: string)

  /** The commands sent to the store. */
  datatype Command =
    | PutObject(acl: string, bucket: string, key: string, body: Bytes, contentType: string)
    | DeleteObject(bucket: string, key: string)

  const UploadFailedMessage: string := "Unknown error occurred"

  class Storage {
    /** The configured bucket. */
    const bucket: string
    /** The bucket's objects by key. */
    var objects: map<string, StoredObject>
    /** Every command sent, in order. */
    ghost var sent: seq<Command>

    constructor(bucket: string, objects: map<string, StoredObject>)
      ensures this.bucket == bucket && this.objects == objects && sent == []
    {
      this.bucket := bucket;
      this.objects := objects;
      sent := [];
    }

    /** `upload`: a private `PutObject` of the body under the key; `sendOk`
        is whether the store accepted it. */
    method Upload(buffer: Bytes, key: string, contentType: string, sendOk: bool) returns (ok: bool)
      modifies this
      ensures ok == sendOk
      ensures sent == old(sent) + [PutObject("private", bucket, key, buffer, contentType)]
      ensures objects == if ok then old(objects)[key := StoredObject(buffer, contentType)]
                         else old(objects)
    {
      sent := sent + [PutObject("private", bucket, key, buffer, contentType)];
      ok := sendOk;
      if ok {
        objects := objects[key := StoredObject(buffer, contentType)];
      }
    }

    /** `uploadNew`: stores the file under the freshly generated `key` and
        returns that key; a failed upload is an `UnknownError`. */
    method UploadNew(buffer: Bytes, input: CreatePageInput, key: string, sendOk: bool)
      returns (r: Result<string, Error>)
      modifies this
      ensures sent == old(sent) + [PutObject("private", bucket, key, buffer, GetContentType(input.pageType))]
      ensures sendOk ==> r == Success(key)
                         && objects == old(objects)[key := StoredObject(buffer, GetContentType(input.pageType))]
      ensures !sendOk ==> r == Failure(NewUnknownError(UploadFailedMessage)) && objects == old(objects)
    {
      var ok := Upload(buffer, key, GetContentType(input.pageType), sendOk);
      if !ok {
        return Failure(NewUnknownError(UploadFailedMessage));
      }
      r := Success(key);
    }

    /** `uploadNewVersion`: replaces the object under an existing key. */
    method UploadNewVersion(buffer: Bytes, t: PageType, key: string, sendOk: bool)
      returns (r: Outcome<Error>)
      modifies this
      ensures sent == old(sent) + [PutObject("private", bucket, key, buffer, GetContentType(t))]
      ensures sendOk ==> r == Pass && objects == old(objects)[key := StoredObject(buffer, GetContentType(t))]
      ensures !sendOk ==> r == Fail(NewUnknownError(UploadFailedMessage)) && objects == old(objects)
    {
      var ok := Upload(buffer, key, GetContentType(t), sendOk);
      if !ok {
        return Fail(NewUnknownError(UploadFailedMessage));
      }
      r := Pass;
    }

    /** `delete`: removes the object; deleting a missing key succeeds. */
    method Delete(key: string, sendOk: bool) returns (r: Outcome<Error>)
      modifies this
      ensures sent == old(sent) + [DeleteObject(bucket, key)]
      ensures sendOk ==> r == Pass && objects == old(objects) - {key}
      ensures !sendOk ==> r == Fail(NewUnknownError(UploadFailedMessage)) && objects == old(objects)
    {
      sent := sent + [DeleteObject(bucket, key)];
      if !sendOk {
        return Fail(NewUnknownError(UploadFailedMessage));
      }
      objects := objects - {key};
      r := Pass;
    }
  }
}
