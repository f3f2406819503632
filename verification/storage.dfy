/** Browser-side object-storage uploads: the generated file name and path,
    a single upload, and the all-or-nothing batch. The storage service is
    an input: its response to each upload request is a parameter, and so
    are the clock reading and the random suffix. */
module Storage {

  import opened Wrappers
  import opened Text
  import opened Validations

  /** `name.split('.').pop()`: the text after the last dot, or the whole
      name when it has no dot. */
  function FileExtension(name: string): (ext: string)
    ensures '.' !in ext
    ensures '.' !in name ==> ext == name
    ensures '.' in name ==> |ext| < |name| && ext == name[|name| - |ext|..] && name[|name| - |ext| - 1] == '.'
  {
    match LastIndexOf(name, '.')
    case None => name
    case Some(i) => name[i + 1..]
  }

  /** Whatever precedes the last dot, the extension is what follows it. */
  lemma ExtensionAfterLastDot(base: string, ext: string)
    requires '.' !in ext
    ensures FileExtension(base + "." + ext) == ext
  {
    LastIndexOfBeforeSuffix(base, '.', ext);
    assert (base + "." + ext)[|base| + 1..] == ext;
  }

  /** The stored object's name: `${Date.now()}-${random}.${ext}`. */
  function GeneratedName(now: nat, suffix: string, original: string): string
  {
    NatToString(now) + "-" + suffix + "." + FileExtension(original)
  }

  /** The generated name keeps the original file's extension. */
  lemma GeneratedNameKeepsExtension(now: nat, suffix: string, original: string)
    ensures FileExtension(GeneratedName(now, suffix, original)) == FileExtension(original)
  {
    ExtensionAfterLastDot(NatToString(now) + "-" + suffix, FileExtension(original));
  }

  /** The timestamp can be read back from the generated name: it is the
      decimal text before the first `-`. Names made at different
      milliseconds therefore differ. */
  lemma GeneratedNameTimestamp(now: nat, suffix: string, original: string)
    ensures var name := GeneratedName(now, suffix, original);
      && IndexOf(name, '-') == Some(|NatToString(now)|)
      && ParseDecimal(name[..|NatToString(now)|]) == now
  {
    var digits := NatToString(now);
    var name := GeneratedName(now, suffix, original);
    assert '-' !in digits by {
      forall i | 0 <= i < |digits| ensures digits[i] != '-' {
        assert IsDigit(digits[i]);
      }
    }
    assert name == digits + ['-'] + (suffix + "." + FileExtension(original));
    IndexOfAfterPrefix(digits, '-', suffix + "." + FileExtension(original));
    assert name[..|digits|] == digits;
    NatToStringRoundTrip(now);
  }

  /** `folder ? `${folder}/${fileName}` : fileName`. */
  function StoragePath(folder: string, fileName: string): string
  {
    if folder != [] then folder + "/" + fileName else fileName
  }

  /** The path's last segment is the file name, and the folder is the text
      before the last `/`. */
  lemma StoragePathSegments(folder: string, fileName: string)
    requires '/' !in fileName
    ensures folder == [] ==> LastIndexOf(StoragePath(folder, fileName), '/') == None
    ensures folder != [] ==>
              && LastIndexOf(StoragePath(folder, fileName), '/') == Some(|folder|)
              && StoragePath(folder, fileName)[..|folder|] == folder
              && StoragePath(folder, fileName)[|folder| + 1..] == fileName
  {
    if folder != [] {
      LastIndexOfBeforeSuffix(folder, '/', fileName);
    }
  }

  /** What is sent to the storage service: a bucket and an object path. */
  datatype UploadRequest = UploadRequest(bucket: string, path: string)

  /** The storage service's answer to one upload. */
  datatype StorageResponse = Stored(path: string) | StorageError(message: string)

  /** The request `uploadFileToSupabaseStorage` sends for `file`. */
  function RequestFor(file: FileInfo, bucket: string, folder: string, now: nat, suffix: string): UploadRequest
  {
    UploadRequest(bucket, StoragePath(folder, GeneratedName(now, suffix, file.name)))
  }

  /** `uploadFileToSupabaseStorage`: a storage error is thrown as
      "Failed to upload file: …" and no URL is produced; otherwise the
      public URL of the stored path is returned. */
  function UploadFile(response: StorageResponse, bucket: string, publicUrl: (string, string) -> string): (r: Result<string>)
    ensures r.Success? <==> response.Stored?
    ensures r.Success? ==> r.value == publicUrl(bucket, response.path)
    ensures r.Failure? ==> r.error == "Failed to upload file: " + response.message
  {
    match response
    case Stored(path) => Success(publicUrl(bucket, path))
    case StorageError(message) => Failure("Failed to upload file: " + message)
  }

  /** `uploadMultipleFilesToStorage`: every file is sent (the uploads are
      started together), and the batch yields one URL per file in input
      order only if every upload succeeded; any failure fails the batch.
      The error reported is the first failure in input order. */
  method UploadBatch(files: seq<FileInfo>, bucket: string, folder: string,
                     stamps: seq<nat>, suffixes: seq<string>, responses: seq<StorageResponse>,
                     publicUrl: (string, string) -> string)
    returns (requests: seq<UploadRequest>, result: Result<seq<string>>)
    requires |stamps| == |files| && |suffixes| == |files| && |responses| == |files|
    ensures |requests| == |files|
    ensures forall i :: 0 <= i < |files| ==> requests[i] == RequestFor(files[i], bucket, folder, stamps[i], suffixes[i])
    ensures result.Success? <==> forall i :: 0 <= i < |files| ==> responses[i].Stored?
    ensures result.Success? ==>
              && |result.value| == |files|
              && forall i :: 0 <= i < |files| ==> result.value[i] == publicUrl(bucket, responses[i].path)
    ensures result.Failure? ==>
              exists i :: && 0 <= i < |files|
                          && responses[i].StorageError?
                          && result.error == "Failed to upload file: " + responses[i].message
                          && forall j :: 0 <= j < i ==> responses[j].Stored?
  {
    requests := seq(|files|, i requires 0 <= i < |files| => RequestFor(files[i], bucket, folder, stamps[i], suffixes[i]));
    var urls: seq<string> := [];
    var k := 0;
    while k < |responses| && responses[k].Stored?
      invariant 0 <= k <= |responses|
      invariant |urls| == k
      invariant forall i :: 0 <= i < k ==> responses[i].Stored? && urls[i] == publicUrl(bucket, responses[i].path)
    {
      urls := urls + [UploadFile(responses[k], bucket, publicUrl).value];
      k := k + 1;
    }
    if k == |responses| {
      result := Success(urls);
    } else {
      result := Failure(UploadFile(responses[k], bucket, publicUrl).error);
    }
  }
}
