/**
 * The pure parts of the asset cards: the name a card shows, the unit its size is shown in, the
 * selection a checkbox produces and the gate in front of the transformation editor.
 */
module AssetCards {
  import opened Wrappers
  import Seqs
  import Strings
  import FileType
  import opened S3Keys

  /** `getFileName`: the text after the last '/' of a key, which is empty when the key ends in '/'. */
  function GetFileName(key: string): (name: string)
    ensures '/' !in name
    ensures |name| <= |key| && key[|key| - |name|..] == name
    ensures '/' !in key ==> name == key
    ensures |key| > 0 && key[|key| - 1] == '/' ==> name == ""
  {
    var name := Strings.AfterLast(key, '/');
    assert |name| > 0 ==> name[|name| - 1] == key[|key| - 1];
    name
  }

  datatype SizeUnit = KB | MB | GB

  /**
   * The unit `normalizeFileSize` picks: kilobytes while `bytes / 1024` is below 500, megabytes
   * while that divided by 1024 again is below 1000, gigabytes beyond. Both divisions are by a
   * power of two and so exact in floating point; they are real divisions here.
   */
  function UnitOf(bytes: nat): SizeUnit {
    var kb := bytes as real / 1024.0;
    if kb < 500.0 then KB
    else
      var mb := kb / 1024.0;
      if mb < 1000.0 then MB else GB
  }

  /** The unit thresholds in whole bytes. */
  lemma UnitThresholds(bytes: nat)
    ensures UnitOf(bytes) == KB <==> bytes < 500 * 1024
    ensures UnitOf(bytes) == MB <==> 500 * 1024 <= bytes < 1000 * 1024 * 1024
    ensures UnitOf(bytes) == GB <==> 1000 * 1024 * 1024 <= bytes
  {
    var kb := bytes as real / 1024.0;
    assert kb < 500.0 <==> bytes < 500 * 1024;
    assert kb / 1024.0 < 1000.0 <==> bytes < 1000 * 1024 * 1024;
  }

  /**
   * The selection after a card's checkbox changes: checking appends the file, even when it is
   * already selected; unchecking drops every selected file with the same key.
   */
  function Toggle(selected: seq<S3File>, file: S3File, checked: bool): (r: seq<S3File>)
    ensures checked ==> |r| == |selected| + 1 && r[..|selected|] == selected && r[|selected|] == file
    ensures !checked ==> forall f :: f in r <==> f in selected && f.key != file.key
  {
    if checked then selected + [file]
    else Seqs.Filter(selected, (f: S3File) => f.key != file.key)
  }

  /** A checkbox shows checked when its file is in the selection. */
  predicate IsChecked(selected: seq<S3File>, file: S3File) {
    file in selected
  }

  /** The checkbox shows the state it was switched to. */
  lemma ToggleShows(selected: seq<S3File>, file: S3File, checked: bool)
    ensures IsChecked(Toggle(selected, file, checked), file) == checked
  {
    if checked {
      assert Toggle(selected, file, checked)[|selected|] == file;
    }
  }

  /** Unchecking keeps every other file as many times as it was selected... */
  lemma UncheckCounts(selected: seq<S3File>, file: S3File)
    ensures forall f ::
              multiset(Toggle(selected, file, false))[f] == if f.key == file.key then 0 else multiset(selected)[f]
  {
    Seqs.FilterCounts(selected, (f: S3File) => f.key != file.key);
  }

  /** ...and in the same relative order: unchecking distributes over a split of the selection. */
  lemma UncheckKeepsOrder(a: seq<S3File>, b: seq<S3File>, file: S3File)
    ensures Toggle(a + b, file, false) == Toggle(a, file, false) + Toggle(b, file, false)
  {
    Seqs.FilterAppend(a, b, (f: S3File) => f.key != file.key);
  }

  /** The category of a stored file, from its URL alone. */
  predicate IsImage(file: S3File) {
    FileType.CategoryOf(FileType.Extension(None, Some(file.url))) == FileType.Image
  }

  /** The key the transformation editor is opened for: an image's file name; otherwise it stays as it was. */
  function TransformTarget(current: Option<string>, file: S3File): (r: Option<string>)
    ensures IsImage(file) ==> r == Some(GetFileName(file.key))
    ensures !IsImage(file) ==> r == current
  {
    if IsImage(file) then Some(GetFileName(file.key)) else current
  }

  /** `transformImgKey && …`: the editor's modal is shown only for a truthy key. */
  predicate EditorOpen(key: Option<string>) {
    Given(key)
  }

  /** Choosing an image shows the editor exactly when its file name is not empty; a key ending in '/' shows nothing. */
  lemma EditorOpensForNamedImages(current: Option<string>, file: S3File)
    requires IsImage(file)
    ensures EditorOpen(TransformTarget(current, file)) <==> GetFileName(file.key) != ""
    ensures |file.key| > 0 && file.key[|file.key| - 1] == '/' ==> !EditorOpen(TransformTarget(current, file))
  {
  }

  /** The editor is opened afresh only for a file whose extension is one of the image extensions. */
  lemma TransformOnlyImages(current: Option<string>, file: S3File)
    requires TransformTarget(current, file) != current
    ensures FileType.Extension(None, Some(file.url)) in FileType.ImageExtensions
    ensures TransformTarget(current, file) == Some(GetFileName(file.key))
  {
    FileType.ImageIff(FileType.Extension(None, Some(file.url)));
  }
}
