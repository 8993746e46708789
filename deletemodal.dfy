/**
 * The delete modal: which keys a delete sends and which files the list keeps afterwards. A modal
 * opened from a card carries that card's key; one opened from the selection bar carries none.
 */
module DeleteModal {
  import opened Wrappers
  import Seqs
  import opened S3Keys

  /** The keys handed to the delete call: the modal's own key when it has one, else the selection's keys in order. */
  function SentKeys(key: Option<string>, selected: seq<S3File>): (keys: seq<string>)
    ensures Given(key) ==> keys == [key.value]
    ensures !Given(key) ==> |keys| == |selected| && forall i :: 0 <= i < |keys| ==> keys[i] == selected[i].key
  {
    if Given(key) then [key.value]
    else seq(|selected|, i requires 0 <= i < |selected| => selected[i].key)
  }

  /** Whether the delete removes `f` from the list: by key with a key, by membership in the selection without. */
  predicate Removes(key: Option<string>, selected: seq<S3File>, f: S3File) {
    if Given(key) then f.key == key.value else f in selected
  }

  /** The list after a delete. */
  function Remaining(files: seq<S3File>, key: Option<string>, selected: seq<S3File>): (r: seq<S3File>)
    ensures forall f :: f in r <==> f in files && !Removes(key, selected, f)
  {
    Seqs.Filter(files, (f: S3File) => !Removes(key, selected, f))
  }

  /** With a key, no file with that key is left; the selection plays no part. */
  lemma RemovesByKey(files: seq<S3File>, key: Option<string>, selected: seq<S3File>)
    requires Given(key)
    ensures forall f :: f in Remaining(files, key, selected) <==> f in files && f.key != key.value
  {
  }

  /** A file that is not removed stays as many times as it was listed... */
  lemma RemainingCounts(files: seq<S3File>, key: Option<string>, selected: seq<S3File>)
    ensures forall f ::
              multiset(Remaining(files, key, selected))[f] == if Removes(key, selected, f) then 0 else multiset(files)[f]
  {
    Seqs.FilterCounts(files, (f: S3File) => !Removes(key, selected, f));
  }

  /** ...and in its original relative order. */
  lemma RemainingKeepsOrder(a: seq<S3File>, b: seq<S3File>, key: Option<string>, selected: seq<S3File>)
    ensures Remaining(a + b, key, selected) == Remaining(a, key, selected) + Remaining(b, key, selected)
  {
    Seqs.FilterAppend(a, b, (f: S3File) => !Removes(key, selected, f));
  }

  /** The keys sent for a selection delete name exactly the files the list then drops. */
  lemma SentKeysCoverRemoved(files: seq<S3File>, selected: seq<S3File>)
    ensures forall f :: f in files && f !in Remaining(files, None, selected) ==> f.key in SentKeys(None, selected)
  {
    forall f | f in files && f !in Remaining(files, None, selected)
      ensures f.key in SentKeys(None, selected)
    {
      var i :| 0 <= i < |selected| && selected[i] == f;
      assert SentKeys(None, selected)[i] == f.key;
    }
  }
}
