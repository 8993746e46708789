/**
 * The dashboard's list state: the stored files, the list a search or a type filter picked, the
 * selection, the asset-type choices, whether a delete modal is open and which image the editor
 * shows. The last two live elsewhere in the page: each `DeleteModal` keeps its own open flag, and
 * `AssetCards` keeps the editor's `transformImgKey` (asset-cards.tsx:53); here they sit beside the
 * list they act on. The page's two effects on the file list (recomputing the asset types,
 * clearing the search result) run after each change of the list; here they run at the end of the
 * method that changed it.
 */
module Dashboard {
  import opened Wrappers
  import Seqs
  import Strings
  import FileType
  import AssetCards
  import DeleteModal
  import opened S3Keys

  /** 20 MB. */
  const MaxUploadBytes: nat := 20 * 1024 * 1024

  function Sum(sizes: seq<nat>): nat {
    if sizes == [] then 0 else sizes[0] + Sum(sizes[1..])
  }

  lemma {:induction false} SumAppend(a: seq<nat>, b: seq<nat>)
    ensures Sum(a + b) == Sum(a) + Sum(b)
  {
    if a == [] {
      assert a + b == b;
    } else {
      assert (a + b)[1..] == a[1..] + b;
      SumAppend(a[1..], b);
    }
  }

  function StoredSizes(files: seq<S3File>): seq<nat> {
    seq(|files|, i requires 0 <= i < |files| => files[i].size)
  }

  function PickedSizes(files: seq<FileType.LocalFile>): seq<nat> {
    seq(|files|, i requires 0 <= i < |files| => files[i].size)
  }

  /** The quota test: the stored total plus the picked total may reach the limit but not pass it. */
  predicate WithinQuota(files: seq<S3File>, picked: seq<FileType.LocalFile>) {
    Sum(StoredSizes(files)) + Sum(PickedSizes(picked)) <= MaxUploadBytes
  }

  /** `extractFilename`: the last '/'-separated segment of a key. */
  function ExtractFilename(key: string): (name: string)
    ensures '/' !in name
    ensures |name| <= |key| && key[|key| - |name|..] == name
    ensures '/' !in key <==> name == key
  {
    Strings.AfterLast(key, '/')
  }

  /** `extractFilename(key) || key`: the last segment, or the whole key when that segment is empty. */
  function HeldKey(key: string): (k: string)
    ensures k == "" ==> key == ""
    ensures '/' !in key ==> k == key
    ensures k != key ==> k == ExtractFilename(key) && '/' !in k
  {
    var name := ExtractFilename(key);
    if name != "" then name else key
  }

  /** The dashboard file for one upload result; `now` stands for `new Date()`. */
  function NewFile(result: UploadResult, now: int): (f: S3File)
    ensures f.key == HeldKey(result.key) && f.lastModified == now && f.size == result.size
    ensures !Strings.Contains(result.url, "%20") ==> f.url == result.url
  {
    S3File(HeldKey(result.key), Strings.ReplaceAll(result.url, "%20", "%2520"), now, result.size)
  }

  /** Every "%20" of the URL becomes "%2520": the first one, and then those of the rest in turn. */
  lemma NewFileEscapesSpaces(result: UploadResult, now: int, a: string, b: string)
    requires result.url == a + "%20" + b && '%' !in a
    ensures NewFile(result, now).url == a + "%2520" + Strings.ReplaceAll(b, "%20", "%2520")
  {
    Strings.ReplaceAllStep(a, b, "%20", "%2520");
  }

  function NewFiles(results: seq<UploadResult>, now: int): (files: seq<S3File>)
    ensures |files| == |results|
    ensures forall i :: 0 <= i < |files| ==> files[i] == NewFile(results[i], now)
  {
    seq(|results|, i requires 0 <= i < |results| => NewFile(results[i], now))
  }

  lemma StoredSizesAppend(a: seq<S3File>, b: seq<S3File>)
    ensures StoredSizes(a + b) == StoredSizes(a) + StoredSizes(b)
  {
    assert forall i :: 0 <= i < |a| + |b| ==> (a + b)[i].size == if i < |a| then a[i].size else b[i - |a|].size;
  }

  /** An upload reports each file's own size, and the dashboard keeps it. */
  lemma UploadedSizes(bucketId: string, domain: string, picked: seq<FileType.LocalFile>, timestamps: seq<nat>, now: int)
    requires |timestamps| == |picked|
    ensures StoredSizes(NewFiles(UploadAll(bucketId, domain, picked, timestamps), now)) == PickedSizes(picked)
  {
    var results := UploadAll(bucketId, domain, picked, timestamps);
    var added := NewFiles(results, now);
    forall i | 0 <= i < |added|
      ensures StoredSizes(added)[i] == PickedSizes(picked)[i]
    {
      assert added[i].size == results[i].size;
      assert results[i].size == picked[i].size;
    }
  }

  /** A batch accepted by the quota test leaves the list within the quota once its files are added. */
  lemma AcceptedUploadStaysWithinQuota(files: seq<S3File>, picked: seq<FileType.LocalFile>,
                                        bucketId: string, domain: string, timestamps: seq<nat>, now: int)
    requires |timestamps| == |picked|
    requires WithinQuota(files, picked)
    ensures Sum(StoredSizes(NewFiles(UploadAll(bucketId, domain, picked, timestamps), now) + files)) <= MaxUploadBytes
  {
    var added := NewFiles(UploadAll(bucketId, domain, picked, timestamps), now);
    StoredSizesAppend(added, files);
    UploadedSizes(bucketId, domain, picked, timestamps, now);
    SumAppend(StoredSizes(added), StoredSizes(files));
  }

  /**
   * A batch from the Upload button, as written. `handleFileChange` is memoised on `isUploading`
   * alone (home.tsx:129-142), so it calls the `handleUploadFiles` of the render in which
   * `isUploading` last changed. That copy's quota test reads the list `checked` of that render,
   * while the functional update prepends to the current list `files`. When the two lists agree this
   * is the corrected handler, `Home.HandleUploadFiles`.
   */
  function ButtonUploadAsWritten(checked: seq<S3File>, files: seq<S3File>, picked: seq<FileType.LocalFile>,
                                 bucketId: string, domain: string, timestamps: seq<nat>, now: int): (after: seq<S3File>)
    requires |timestamps| == |picked|
    ensures checked == files ==> after == files || Sum(StoredSizes(after)) <= MaxUploadBytes
  {
    if WithinQuota(checked, picked) then
      AcceptedUploadStaysWithinQuota(checked, picked, bucketId, domain, timestamps, now);
      NewFiles(UploadAll(bucketId, domain, picked, timestamps), now) + files
    else files
  }

  /**
   * 15 MB stored, the button still holding the first render's empty list: a 10 MB file passes the
   * quota test that the current list fails, and 25 MB end up stored.
   */
  lemma StaleListAcceptsOverQuota(stored: S3File, picked: FileType.LocalFile, bucketId: string, domain: string, t: nat, now: int)
    requires stored.size == 15 * 1024 * 1024 && picked.size == 10 * 1024 * 1024
    ensures !WithinQuota([stored], [picked])
    ensures Sum(StoredSizes(ButtonUploadAsWritten([], [stored], [picked], bucketId, domain, [t], now))) > MaxUploadBytes
  {
    var added := NewFiles(UploadAll(bucketId, domain, [picked], [t]), now);
    UploadedSizes(bucketId, domain, [picked], [t], now);
    StoredSizesAppend(added, [stored]);
    SumAppend(StoredSizes(added), StoredSizes([stored]));
    assert StoredSizes(added) == [picked.size];
  }

  /** After the stored 15 MB file was deleted, the button's stale list still counts it and refuses a 10 MB file that fits. */
  lemma StaleListRefusesAfterDelete(stored: S3File, picked: FileType.LocalFile, bucketId: string, domain: string, t: nat, now: int)
    requires stored.size == 15 * 1024 * 1024 && picked.size == 10 * 1024 * 1024
    ensures WithinQuota([], [picked])
    ensures ButtonUploadAsWritten([stored], [], [picked], bucketId, domain, [t], now) == []
  {
    assert StoredSizes([stored]) == [stored.size];
  }

  /** The type the dashboard files a stored object under: the file-type extension of its URL. */
  function TypeOf(f: S3File): string {
    FileType.Extension(None, Some(f.url))
  }

  function Types(files: seq<S3File>): seq<string> {
    seq(|files|, i requires 0 <= i < |files| => TypeOf(files[i]))
  }

  /** The types occurring in the list are those of its files. */
  lemma TypesOfFiles(files: seq<S3File>, t: string)
    ensures t in Types(files) <==> exists f :: f in files && TypeOf(f) == t
  {
    if t in Types(files) {
      var i :| 0 <= i < |files| && Types(files)[i] == t;
      assert files[i] in files;
    }
    if exists f :: f in files && TypeOf(f) == t {
      var f :| f in files && TypeOf(f) == t;
      var i :| 0 <= i < |files| && files[i] == f;
      assert Types(files)[i] == t;
    }
  }

  /** No type is "All": types are lower case. */
  lemma TypeIsNotAll(files: seq<S3File>, i: int)
    requires 0 <= i < |files|
    ensures Types(files)[i] != "All"
  {
    assert !Strings.IsUpper(TypeOf(files[i])[0]);
  }

  /** `["All", ...new Set(types)]`: the distinct types follow "All" in the order each first occurs. */
  function AssetTypes(files: seq<S3File>): (types: seq<string>)
    ensures |types| >= 1 && types[0] == "All"
    ensures forall t :: t in types[1..] <==> t in Types(files)
    ensures Seqs.NoDuplicates(types)
    ensures forall i, j :: 1 <= i < j < |types| ==>
              Seqs.FirstIndex(Types(files), types[i]) < Seqs.FirstIndex(Types(files), types[j])
  {
    var distinct := Seqs.Distinct(Types(files));
    var types := ["All"] + distinct;
    assert types[1..] == distinct;
    Seqs.DistinctFirstOccurrenceOrder(Types(files));
    assert forall i :: 1 <= i < |types| ==> types[i] == distinct[i - 1];
    forall i | 1 <= i < |types| ensures types[i] != "All" {
      assert types[i] == distinct[i - 1];
      assert distinct[i - 1] in Types(files);
      var k :| 0 <= k < |files| && Types(files)[k] == distinct[i - 1];
      TypeIsNotAll(files, k);
    }
    types
  }

  /** The files whose key contains the query, both lower-cased. */
  function Matches(files: seq<S3File>, query: string): (hits: seq<S3File>)
    ensures forall f :: f in hits <==> f in files && Strings.Contains(Strings.ToLower(f.key), Strings.ToLower(query))
  {
    Seqs.Filter(files, (f: S3File) => Strings.Contains(Strings.ToLower(f.key), Strings.ToLower(query)))
  }

  /** Matches keep the list's order: matching distributes over a split of the list. */
  lemma MatchesKeepOrder(a: seq<S3File>, b: seq<S3File>, query: string)
    ensures Matches(a + b, query) == Matches(a, query) + Matches(b, query)
  {
    Seqs.FilterAppend(a, b, (f: S3File) => Strings.Contains(Strings.ToLower(f.key), Strings.ToLower(query)));
  }

  /** The empty query matches every file. */
  lemma EmptyQueryMatchesAll(files: seq<S3File>)
    ensures Matches(files, "") == files
  {
    Seqs.FilterAll(files, (f: S3File) => Strings.Contains(Strings.ToLower(f.key), Strings.ToLower("")));
  }

  /** The matching is case-insensitive: the query's case plays no part. */
  lemma MatchesIgnoreCase(files: seq<S3File>, query: string)
    ensures Matches(files, Strings.ToLower(query)) == Matches(files, query)
  {
    Strings.ToLowerIdempotent(query);
  }

  /** The files of one type. */
  function OfType(files: seq<S3File>, t: string): (r: seq<S3File>)
    ensures forall f :: f in r <==> f in files && TypeOf(f) == t
  {
    Seqs.Filter(files, (f: S3File) => TypeOf(f) == t)
  }

  /** No file is of type "All": types are lower case. */
  lemma AllMatchesNone(files: seq<S3File>)
    ensures OfType(files, "All") == []
  {
    forall i | 0 <= i < |files| ensures TypeOf(files[i]) != "All" {
      assert !Strings.IsUpper(TypeOf(files[i])[0]);
    }
    Seqs.FilterNone(files, (f: S3File) => TypeOf(f) == "All");
  }

  class Home {
    var files: seq<S3File>
    var searched: seq<S3File>
    var selected: seq<S3File>
    var assetTypes: seq<string>
    var deleteOpen: bool
    var transformKey: Option<string>

    /** The search result only ever holds listed files, and the type choices start with "All". */
    predicate Valid()
      reads this
    {
      (forall f :: f in searched ==> f in files) &&
      (assetTypes == [] || (assetTypes[0] == "All" && Seqs.NoDuplicates(assetTypes)))
    }

    /** The list the cards show: the search result when it is non-empty, else every file. */
    function Shown(): (shown: seq<S3File>)
      reads this
      ensures Valid() ==> forall f :: f in shown ==> f in files
    {
      if |searched| > 0 then searched else files
    }

    constructor()
      ensures Valid()
      ensures files == [] && searched == [] && selected == [] && assetTypes == []
      ensures !deleteOpen && transformKey == None
    {
      files, searched, selected, assetTypes := [], [], [], [];
      deleteOpen, transformKey := false, None;
    }

    /** The effects on the file list: the type choices follow a non-empty list; the search result is cleared. */
    method FilesChanged()
      modifies this
      ensures searched == []
      ensures assetTypes == if |files| > 0 then AssetTypes(files) else old(assetTypes)
      ensures files == old(files) && selected == old(selected)
      ensures deleteOpen == old(deleteOpen) && transformKey == old(transformKey)
      ensures old(Valid()) ==> Valid()
    {
      if |files| > 0 {
        assetTypes := AssetTypes(files);
      }
      searched := [];
    }

    /** `getFilesFromS3` on mounting: the list becomes the keyed entries of the listing. */
    method Load(domain: string, now: int, items: seq<ListedObject>)
      requires Valid()
      modifies this
      ensures Valid()
      ensures files == Listing(domain, now, items) && searched == []
      ensures assetTypes == if |files| > 0 then AssetTypes(files) else old(assetTypes)
      ensures selected == old(selected) && deleteOpen == old(deleteOpen) && transformKey == old(transformKey)
    {
      files := Listing(domain, now, items);
      FilesChanged();
    }

    /**
     * `handleUploadFiles`. A batch over the quota is refused before any upload. Otherwise every
     * file is uploaded with its own timestamp; when the batch fails the list is left alone, and
     * when it succeeds the new files go before the existing ones in the order they were picked.
     */
    method HandleUploadFiles(bucketId: string, domain: string, picked: seq<FileType.LocalFile>,
                             timestamps: seq<nat>, batchFails: bool, now: int)
      returns (uploadStarted: bool)
      requires Valid()
      requires |timestamps| == |picked|
      modifies this
      ensures Valid()
      ensures uploadStarted <==> WithinQuota(old(files), picked)
      ensures !uploadStarted || batchFails ==>
        files == old(files) && searched == old(searched) && assetTypes == old(assetTypes)
      ensures uploadStarted && !batchFails ==>
        files == NewFiles(UploadAll(bucketId, domain, picked, timestamps), now) + old(files) &&
        searched == [] &&
        assetTypes == (if |files| > 0 then AssetTypes(files) else old(assetTypes))
      ensures uploadStarted && !batchFails ==> Sum(StoredSizes(files)) <= MaxUploadBytes
      ensures selected == old(selected) && deleteOpen == old(deleteOpen) && transformKey == old(transformKey)
    {
      if !WithinQuota(files, picked) {
        return false;
      }
      uploadStarted := true;
      if batchFails {
        return;
      }
      var results := UploadAll(bucketId, domain, picked, timestamps);
      AcceptedUploadStaysWithinQuota(files, picked, bucketId, domain, timestamps, now);
      files := NewFiles(results, now) + files;
      FilesChanged();
    }

    /** `handleSearch`: the matching files, unless there are none, in which case nothing changes. */
    method Search(query: string)
      requires Valid()
      modifies this
      ensures Valid()
      ensures var hits := Matches(files, query); searched == if |hits| > 0 then hits else old(searched)
      ensures files == old(files) && selected == old(selected) && assetTypes == old(assetTypes)
      ensures deleteOpen == old(deleteOpen) && transformKey == old(transformKey)
    {
      var hits := Matches(files, query);
      if |hits| > 0 {
        searched := hits;
      }
    }

    /** `selectAsset`: the files of the chosen type; "All" picks none, so every file is shown. */
    method SelectAsset(t: string)
      requires Valid()
      modifies this
      ensures Valid()
      ensures searched == OfType(files, t)
      ensures t == "All" ==> Shown() == files
      ensures files == old(files) && selected == old(selected) && assetTypes == old(assetTypes)
      ensures deleteOpen == old(deleteOpen) && transformKey == old(transformKey)
    {
      searched := OfType(files, t);
      if t == "All" {
        AllMatchesNone(files);
      }
    }

    /** A card's checkbox changed. */
    method SetChecked(file: S3File, checked: bool)
      requires Valid()
      modifies this
      ensures Valid()
      ensures selected == AssetCards.Toggle(old(selected), file, checked)
      ensures AssetCards.IsChecked(selected, file) == checked
      ensures files == old(files) && searched == old(searched) && assetTypes == old(assetTypes)
      ensures deleteOpen == old(deleteOpen) && transformKey == old(transformKey)
    {
      selected := AssetCards.Toggle(selected, file, checked);
      AssetCards.ToggleShows(old(selected), file, checked);
    }

    /** A card's edit button: the editor opens on an image, and stays as it was for anything else. */
    method OpenTransform(file: S3File)
      requires Valid()
      modifies this
      ensures Valid()
      ensures transformKey == AssetCards.TransformTarget(old(transformKey), file)
      ensures files == old(files) && searched == old(searched) && selected == old(selected)
      ensures assetTypes == old(assetTypes) && deleteOpen == old(deleteOpen)
    {
      transformKey := AssetCards.TransformTarget(transformKey, file);
    }

    method OpenDelete()
      requires Valid()
      modifies this
      ensures Valid()
      ensures deleteOpen
      ensures files == old(files) && searched == old(searched) && selected == old(selected)
      ensures assetTypes == old(assetTypes) && transformKey == old(transformKey)
    {
      deleteOpen := true;
    }

    method CancelDelete()
      requires Valid()
      modifies this
      ensures Valid()
      ensures !deleteOpen
      ensures files == old(files) && searched == old(searched) && selected == old(selected)
      ensures assetTypes == old(assetTypes) && transformKey == old(transformKey)
    {
      deleteOpen := false;
    }

    /**
     * `handleDeleteS3Files`: sends the keys for deletion (returned here as the object keys of the
     * request), drops the deleted files from the list whatever the outcome of the request, closes
     * the modal and clears the selection, for a single-key delete too.
     */
    method ConfirmDelete(bucketId: string, key: Option<string>) returns (objectKeys: seq<string>)
      requires Valid()
      modifies this
      ensures Valid()
      ensures objectKeys == DeleteObjectKeys(bucketId, DeleteModal.SentKeys(key, old(selected)))
      ensures files == DeleteModal.Remaining(old(files), key, old(selected))
      ensures selected == [] && !deleteOpen && searched == []
      ensures assetTypes == if |files| > 0 then AssetTypes(files) else old(assetTypes)
      ensures transformKey == old(transformKey)
    {
      objectKeys := DeleteObjectKeys(bucketId, DeleteModal.SentKeys(key, selected));
      files := DeleteModal.Remaining(files, key, selected);
      deleteOpen := false;
      selected := [];
      FilesChanged();
    }
  }
}
