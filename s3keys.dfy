/**
 * The object keys and URLs the storage helpers build: the key an upload is stored under, the
 * public URL of a key, the projection of a bucket listing onto dashboard files, and the key a
 * delete request names. The storage calls themselves are not modelled; their outcomes are inputs.
 */
module S3Keys {
  import opened Wrappers
  import Strings
  import Seqs
  import FileType

  /** A stored object as the dashboard holds it; `lastModified` is a time in milliseconds. */
  datatype S3File = S3File(key: string, url: string, lastModified: int, size: nat)

  /** What one successful upload reports back. */
  datatype UploadResult = UploadResult(url: string, key: string, size: nat)

  /**
   * `fileName.substring(0, fileName.lastIndexOf("."))`: the text before the last '.'; with no '.'
   * the index is -1, which `substring` clamps to 0, so the base name is empty.
   */
  function BaseName(name: string): (base: string)
    ensures '.' !in name ==> base == ""
    ensures '.' in name ==> name == base + "." + Strings.AfterLast(name, '.')
  {
    if '.' in name then
      Strings.LastIndexOfSplits(name, '.');
      name[..Strings.LastIndexOf(name, '.')]
    else ""
  }

  /** `fileName.split(".").pop()`: the text after the last '.', or the whole name. */
  function FileExtension(name: string): string {
    Strings.AfterLast(name, '.')
  }

  /** The key an upload is stored under: `bucketId/baseName-timestamp.ext`. */
  function UploadKey(bucketId: string, name: string, timestamp: nat): string {
    bucketId + "/" + UploadFileName(name, timestamp)
  }

  /** The part of the upload key after the bucket folder. */
  function UploadFileName(name: string, timestamp: nat): string {
    BaseName(name) + "-" + Strings.NatToString(timestamp) + "." + FileExtension(name)
  }

  /** A name `base.ext` whose extension has no '.' is stored as `bucketId/base-timestamp.ext`. */
  lemma UploadKeyShape(bucketId: string, base: string, ext: string, timestamp: nat)
    requires '.' !in ext
    ensures UploadFileName(base + "." + ext, timestamp) == base + "-" + Strings.NatToString(timestamp) + "." + ext
    ensures UploadKey(bucketId, base + "." + ext, timestamp)
      == bucketId + "/" + base + "-" + Strings.NatToString(timestamp) + "." + ext
  {
    var name := base + "." + ext;
    Strings.AfterSeparator(base, ext, '.');
    assert name == BaseName(name) + "." + ext;
    assert BaseName(name) == base by {
      assert |BaseName(name)| == |base|;
      assert BaseName(name) == name[..|base|] == base;
    }
  }

  /** A name with no '.' gets an empty base name and keeps the whole name as its extension. */
  lemma UploadKeyWithoutDot(bucketId: string, name: string, timestamp: nat)
    requires '.' !in name
    ensures UploadKey(bucketId, name, timestamp) == bucketId + "/-" + Strings.NatToString(timestamp) + "." + name
  {
  }

  /** The stored key ends in the file's own extension: the type of an upload is that of the file. */
  lemma UploadKeyKeepsExtension(bucketId: string, name: string, timestamp: nat)
    ensures Strings.AfterLast(UploadKey(bucketId, name, timestamp), '.') == FileExtension(name)
  {
    var prefix := bucketId + "/" + BaseName(name) + "-" + Strings.NatToString(timestamp);
    assert UploadKey(bucketId, name, timestamp) == prefix + "." + FileExtension(name);
    Strings.AfterSeparator(prefix, FileExtension(name), '.');
  }

  /** For a name without '/', the last path segment of the key is everything after the bucket folder. */
  lemma {:induction false} UploadKeyLastSegment(bucketId: string, name: string, timestamp: nat)
    requires '/' !in name
    ensures '/' !in UploadFileName(name, timestamp)
    ensures Strings.AfterLast(UploadKey(bucketId, name, timestamp), '/') == UploadFileName(name, timestamp)
  {
    var base, digits, ext := BaseName(name), Strings.NatToString(timestamp), FileExtension(name);
    assert '/' !in base by {
      if '.' in name {
        assert base == name[..|base|];
      }
    }
    assert '/' !in ext by {
      assert ext == name[|name| - |ext|..];
    }
    assert '/' !in digits by {
      assert forall i :: 0 <= i < |digits| ==> Strings.IsDigit(digits[i]);
    }
    var tail := UploadFileName(name, timestamp);
    assert forall i :: 0 <= i < |tail| ==> tail[i] != '/' by {
      assert tail == base + "-" + digits + "." + ext;
      forall i | 0 <= i < |tail| ensures tail[i] != '/' {
        if i < |base| {
          assert tail[i] == base[i];
        } else if i < |base| + 1 + |digits| + 1 {
          assert tail[i] == (base + "-" + digits + ".")[i];
        } else {
          assert tail[i] == ext[i - |base| - |digits| - 2];
        }
      }
    }
    Strings.AfterSeparator(bucketId, tail, '/');
  }

  /** `https://<domain>.cloudfront.net/<key>`: the public URL of a key. */
  function ObjectUrl(domain: string, key: string): (url: string)
    ensures |url| > |key| && url[|url| - |key|..] == key
  {
    "https://" + domain + ".cloudfront.net/" + key
  }

  /** What the upload of one file reports: its URL, its key and the file's own size. */
  function UploadOne(bucketId: string, domain: string, file: FileType.LocalFile, timestamp: nat): (r: UploadResult)
    ensures r.key == UploadKey(bucketId, file.name, timestamp)
    ensures r.url == ObjectUrl(domain, r.key)
    ensures r.size == file.size
  {
    var key := UploadKey(bucketId, file.name, timestamp);
    UploadResult(ObjectUrl(domain, key), key, file.size)
  }

  /** The results of a batch upload in which every file succeeds, in the order the files were given. */
  function UploadAll(bucketId: string, domain: string, files: seq<FileType.LocalFile>, timestamps: seq<nat>): (r: seq<UploadResult>)
    requires |timestamps| == |files|
    ensures |r| == |files|
    ensures forall i :: 0 <= i < |r| ==> r[i] == UploadOne(bucketId, domain, files[i], timestamps[i])
  {
    seq(|files|, i requires 0 <= i < |files| => UploadOne(bucketId, domain, files[i], timestamps[i]))
  }

  /** The folder a listing is restricted to. */
  function ListPrefix(bucketId: string): string {
    bucketId + "/"
  }

  /** An uploaded object lies in its bucket's folder, so the next listing can find it. */
  lemma UploadKeyInFolder(bucketId: string, name: string, timestamp: nat)
    ensures ListPrefix(bucketId) <= UploadKey(bucketId, name, timestamp)
  {
  }

  /** An entry of a bucket listing; absent attributes are `None`. */
  datatype ListedObject = ListedObject(key: Option<string>, lastModified: Option<int>, size: Option<nat>)

  /** `!item.Key` drops an entry with no key and also one whose key is empty. */
  predicate HasKey(item: ListedObject) {
    item.key.Some? && item.key.value != ""
  }

  /** The dashboard file for a keyed entry; `now` stands for `new Date()`. */
  function Entry(domain: string, now: int, item: ListedObject): S3File
    requires HasKey(item)
  {
    S3File(item.key.value, ObjectUrl(domain, item.key.value), item.lastModified.GetOr(now), item.size.GetOr(0))
  }

  /** `getFilesFromS3`: the keyed entries, in listing order, as dashboard files. */
  function Listing(domain: string, now: int, items: seq<ListedObject>): (files: seq<S3File>)
    ensures |files| <= |items|
    ensures forall i :: 0 <= i < |files| ==> files[i].key != "" && files[i].url == ObjectUrl(domain, files[i].key)
  {
    var kept := Seqs.Filter(items, HasKey);
    assert forall i :: 0 <= i < |kept| ==> kept[i] in kept;
    seq(|kept|, i requires 0 <= i < |kept| => Entry(domain, now, kept[i]))
  }

  /** A listing of concatenated pages is the concatenation of their listings: order is kept. */
  lemma ListingAppend(domain: string, now: int, a: seq<ListedObject>, b: seq<ListedObject>)
    ensures Listing(domain, now, a + b) == Listing(domain, now, a) + Listing(domain, now, b)
  {
    Seqs.FilterAppend(a, b, HasKey);
  }

  /** An entry without a key contributes nothing. */
  lemma ListingDropsUnkeyed(domain: string, now: int, item: ListedObject)
    requires !HasKey(item)
    ensures Listing(domain, now, [item]) == []
  {
    Seqs.FilterNone([item], HasKey);
  }

  /** A keyed entry comes out with its full key, and with size 0 when the listing gives none. */
  lemma ListingKeepsKeyed(domain: string, now: int, item: ListedObject)
    requires HasKey(item)
    ensures Listing(domain, now, [item]) == [S3File(item.key.value, ObjectUrl(domain, item.key.value),
      item.lastModified.GetOr(now), if item.size.Some? then item.size.value else 0)]
  {
    Seqs.FilterAll([item], HasKey);
  }

  /** When every entry has a key, the listing is one file per entry, position by position. */
  lemma ListingAllKeyed(domain: string, now: int, items: seq<ListedObject>)
    requires forall i :: 0 <= i < |items| ==> HasKey(items[i])
    ensures |Listing(domain, now, items)| == |items|
    ensures forall i :: 0 <= i < |items| ==> Listing(domain, now, items)[i].key == items[i].key.value
  {
    Seqs.FilterAll(items, HasKey);
  }

  /**
   * The key a delete request names for `key`, as written: unchanged when it contains the bucket
   * id anywhere, otherwise put into the bucket's folder.
   */
  function DeleteKeyAsWritten(bucketId: string, key: string): (k: string)
    ensures Strings.Contains(k, bucketId)
  {
    if Strings.Contains(key, bucketId) then key else bucketId + "/" + key
  }

  /**
   * A file whose base name starts with the bucket id is held by the dashboard under a last
   * segment that already contains the id, so the delete request names that segment as it is
   * and not the stored key.
   */
  lemma ContainedIdSkipsPrefix(bucketId: string, base: string, ext: string, timestamp: nat)
    requires bucketId <= base && '.' !in ext && '/' !in base + "." + ext
    ensures DeleteKeyAsWritten(bucketId, Strings.AfterLast(UploadKey(bucketId, base + "." + ext, timestamp), '/'))
      != UploadKey(bucketId, base + "." + ext, timestamp)
  {
    var name := base + "." + ext;
    UploadKeyShape(bucketId, base, ext, timestamp);
    UploadKeyLastSegment(bucketId, name, timestamp);
    var held := UploadFileName(name, timestamp);
    assert bucketId <= held;
    assert DeleteKeyAsWritten(bucketId, held) == held;
  }

  /** The instance: uploading "abcdefgh.png" into bucket "abcdefgh". */
  lemma ContainedIdExample(bucketId: string, base: string, ext: string)
    requires bucketId == "abcdefgh" && base == bucketId && ext == "png"
    ensures DeleteKeyAsWritten(bucketId, Strings.AfterLast(UploadKey(bucketId, base + "." + ext, 1), '/'))
      != UploadKey(bucketId, base + "." + ext, 1)
  {
    ContainedIdSkipsPrefix(bucketId, base, ext, 1);
  }

  /** The delete key with the evidently intended test: is the key already inside the bucket's folder? */
  function DeleteKey(bucketId: string, key: string): (k: string)
    ensures ListPrefix(bucketId) <= k
    ensures ListPrefix(bucketId) <= key ==> k == key
  {
    if ListPrefix(bucketId) <= key then key else bucketId + "/" + key
  }

  /** Naming a key for deletion twice changes nothing more. */
  lemma DeleteKeyIdempotent(bucketId: string, key: string)
    ensures DeleteKey(bucketId, DeleteKey(bucketId, key)) == DeleteKey(bucketId, key)
  {
  }

  /** The corrected test agrees with the written one on full keys and on keys that never mention the bucket. */
  lemma DeleteKeyAgrees(bucketId: string, key: string)
    requires ListPrefix(bucketId) <= key || !Strings.Contains(key, bucketId)
    ensures DeleteKey(bucketId, key) == DeleteKeyAsWritten(bucketId, key)
  {
  }

  /** Both a listed key and the last segment the dashboard keeps after an upload delete the stored object. */
  lemma DeleteKeyFindsUpload(bucketId: string, name: string, timestamp: nat)
    requires '/' !in name
    ensures DeleteKey(bucketId, UploadKey(bucketId, name, timestamp)) == UploadKey(bucketId, name, timestamp)
    ensures DeleteKey(bucketId, Strings.AfterLast(UploadKey(bucketId, name, timestamp), '/'))
      == UploadKey(bucketId, name, timestamp)
  {
    UploadKeyLastSegment(bucketId, name, timestamp);
    assert ListPrefix(bucketId)[|bucketId|] == '/';
  }

  /** `deleteFileFromS3`: one delete key per given key, in the same order. */
  function DeleteObjectKeys(bucketId: string, keys: seq<string>): (r: seq<string>)
    ensures |r| == |keys|
    ensures forall i :: 0 <= i < |r| ==> r[i] == DeleteKey(bucketId, keys[i])
  {
    seq(|keys|, i requires 0 <= i < |keys| => DeleteKey(bucketId, keys[i]))
  }
}
