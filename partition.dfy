/**
 * Splitting the loaded document files into TDE templates (sent to the server's batch insert)
 * and all other files (sent to the batch writer).
 */
module TdePartition {
  import opened Documents

  /** Every file in `files` has TDE classification `tde`. */
  predicate AllClassified(files: seq<DocumentFile>, tde: bool) {
    forall f | f in files :: IsTdeFile(f) == tde
  }

  /** The files whose TDE classification is `tde`, in input order. */
  function Select(docs: seq<DocumentFile>, tde: bool): (r: seq<DocumentFile>)
    ensures AllClassified(r, tde)
    ensures |r| <= |docs|
    decreases |docs|
  {
    if docs == [] then []
    else
      var f := docs[|docs| - 1];
      var init := Select(docs[..|docs| - 1], tde);
      if IsTdeFile(f) == tde then init + [f] else init
  }

  /** The loop of `loadSchemas` that fills `tdeFiles` and `nonTdeFiles`. */
  method PartitionTdeFiles(documentFiles: seq<DocumentFile>)
    returns (tdeFiles: seq<DocumentFile>, nonTdeFiles: seq<DocumentFile>)
    ensures tdeFiles == Select(documentFiles, true)
    ensures nonTdeFiles == Select(documentFiles, false)
  {
    tdeFiles, nonTdeFiles := [], [];
    for i := 0 to |documentFiles|
      invariant tdeFiles == Select(documentFiles[..i], true)
      invariant nonTdeFiles == Select(documentFiles[..i], false)
    {
      var file := documentFiles[i];
      var metadata := file.metadata;
      assert documentFiles[..i + 1][..i] == documentFiles[..i];
      if metadata.Some? && TDE_COLLECTION in metadata.value.collections {
        tdeFiles := tdeFiles + [file];
      } else {
        nonTdeFiles := nonTdeFiles + [file];
      }
    }
    assert documentFiles[..|documentFiles|] == documentFiles;
  }

  /** A file is selected exactly when it is an input file with the requested classification. */
  lemma {:induction false} SelectMembership(docs: seq<DocumentFile>, tde: bool, f: DocumentFile)
    ensures f in Select(docs, tde) <==> f in docs && IsTdeFile(f) == tde
    decreases |docs|
  {
    if docs != [] {
      var init := docs[..|docs| - 1];
      SelectMembership(init, tde, f);
      assert docs == init + [docs[|docs| - 1]];
    }
  }

  /** Every input file lands in exactly one of the two lists. */
  lemma PartitionExactlyOne(docs: seq<DocumentFile>, f: DocumentFile)
    requires f in docs
    ensures f in Select(docs, true) <==> f !in Select(docs, false)
    ensures f in Select(docs, true) <==> IsTdeFile(f)
  {
  }

  /** The two lists hold every input file, with its multiplicity, and nothing else. */
  lemma {:induction false} PartitionCoversInput(docs: seq<DocumentFile>)
    ensures multiset(Select(docs, true)) + multiset(Select(docs, false)) == multiset(docs)
    ensures |Select(docs, true)| + |Select(docs, false)| == |docs|
    decreases |docs|
  {
    if docs != [] {
      var init := docs[..|docs| - 1];
      PartitionCoversInput(init);
      assert docs == init + [docs[|docs| - 1]];
    }
  }

  /** `sub` is obtained from `s` by deleting elements, keeping the order of the rest. */
  predicate IsSubsequence<T(==)>(sub: seq<T>, s: seq<T>)
    decreases |s|
  {
    if sub == [] then true
    else if s == [] then false
    else
      (sub[|sub| - 1] == s[|s| - 1] && IsSubsequence(sub[..|sub| - 1], s[..|s| - 1]))
      || IsSubsequence(sub, s[..|s| - 1])
  }

  /** Each list keeps the relative order of the input. */
  lemma {:induction false} SelectKeepsOrder(docs: seq<DocumentFile>, tde: bool)
    ensures IsSubsequence(Select(docs, tde), docs)
    decreases |docs|
  {
    if docs != [] {
      var init := docs[..|docs| - 1];
      SelectKeepsOrder(init, tde);
      var r := Select(docs, tde);
      if IsTdeFile(docs[|docs| - 1]) == tde {
        assert r[..|r| - 1] == Select(init, tde);
      }
    }
  }

  /** Rebuilds a sequence from two lists: position k takes the next element of `a`
      when `tags[k]` holds and the next element of `b` otherwise. */
  function Interleave<T>(tags: seq<bool>, a: seq<T>, b: seq<T>): seq<T>
    decreases |tags|
  {
    if tags == [] then []
    else if tags[|tags| - 1] then
      if a == [] then [] else Interleave(tags[..|tags| - 1], a[..|a| - 1], b) + [a[|a| - 1]]
    else
      if b == [] then [] else Interleave(tags[..|tags| - 1], a, b[..|b| - 1]) + [b[|b| - 1]]
  }

  /** Adding one tagged element at the end of the tags and of the matching list adds it at the end. */
  lemma InterleaveSnoc<T>(tags: seq<bool>, a: seq<T>, b: seq<T>, x: T, tag: bool)
    ensures Interleave(tags + [tag], if tag then a + [x] else a, if tag then b else b + [x])
         == Interleave(tags, a, b) + [x]
  {
  }

  /** The TDE classification of each input file, in input order. */
  function TdeTags(docs: seq<DocumentFile>): (tags: seq<bool>)
    ensures |tags| == |docs|
  {
    seq(|docs|, i requires 0 <= i < |docs| => IsTdeFile(docs[i]))
  }

  /** Merging the two lists back by the files' classification gives the input again:
      the partition loses nothing, adds nothing and reorders nothing. */
  lemma {:induction false} PartitionInterleaves(docs: seq<DocumentFile>)
    ensures Interleave(TdeTags(docs), Select(docs, true), Select(docs, false)) == docs
    decreases |docs|
  {
    if docs != [] {
      var init, f := docs[..|docs| - 1], docs[|docs| - 1];
      var t, n, tag := Select(init, true), Select(init, false), IsTdeFile(f);
      calc {
        Interleave(TdeTags(docs), Select(docs, true), Select(docs, false));
        { assert TdeTags(docs) == TdeTags(init) + [tag]; }
        Interleave(TdeTags(init) + [tag], if tag then t + [f] else t, if tag then n else n + [f]);
        { InterleaveSnoc(TdeTags(init), t, n, f, tag); }
        Interleave(TdeTags(init), t, n) + [f];
        { PartitionInterleaves(init); }
        init + [f];
      }
    }
  }
}
