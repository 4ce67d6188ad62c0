/** The refinement of the upstream reply: every video is reduced to its id, its
    photographer's name and one download link, the link of the first file whose
    quality is "sd" and that has a `link` key. A video whose link so found is
    empty, or that has no such file, is dropped. */
module Refinement {
  import opened PexelsData

  /** The file the inner scan stops at: quality "sd" and a `link` key present
      (whatever the link's value). */
  predicate IsSdWithLink(f: FileInfo) {
    f.quality == Some(SdQuality) && f.link.Some?
  }

  /** The index of the first file the scan stops at, if any. */
  function FirstSdIndex(files: seq<FileInfo>): (r: Option<nat>)
    ensures r.Some? ==> r.value < |files| && IsSdWithLink(files[r.value])
    ensures r.Some? ==> forall j :: 0 <= j < r.value ==> !IsSdWithLink(files[j])
    ensures r.None? ==> forall j :: 0 <= j < |files| ==> !IsSdWithLink(files[j])
  {
    if files == [] then None
    else if IsSdWithLink(files[0]) then Some(0)
    else
      match FirstSdIndex(files[1..])
      case None => None
      case Some(i) => Some(i + 1)
  }

  /** The value `download_link` holds after the scan: the first matching
      file's link, or "" when no file matches. */
  function DownloadLink(files: seq<FileInfo>): (link: string)
    ensures link != "" ==> exists i :: 0 <= i < |files| && IsSdWithLink(files[i]) && files[i].link == Some(link)
    ensures (forall i :: 0 <= i < |files| ==> !IsSdWithLink(files[i])) ==> link == ""
  {
    match FirstSdIndex(files)
    case None => ""
    case Some(i) => files[i].link.value
  }

  /** Whether the video survives refinement (`if download_link:`). */
  predicate Kept(v: Video)
    ensures Kept(v) ==> exists i :: 0 <= i < |FilesOf(v)| && IsSdWithLink(FilesOf(v)[i])
  {
    DownloadLink(FilesOf(v)) != ""
  }

  /** The entry a kept video contributes to the reply. */
  function Summarize(v: Video): (s: Summary)
    ensures s.id == v.id
    ensures s.photographer.Some? <==> v.user.Some? && v.user.value.name.Some?
    ensures Kept(v) ==> s.downloadUrl != ""
  {
    Summary(v.id, PhotographerOf(v), DownloadLink(FilesOf(v)))
  }

  /** The shape of the refinement loop, for any element types: walk the list
      in order and append `f(x)` for every `x` that satisfies `keep`. */
  function FilterMap<T, U>(keep: T -> bool, f: T -> U, xs: seq<T>): (out: seq<U>)
    ensures |out| <= |xs|
  {
    if xs == [] then []
    else
      var x := xs[|xs| - 1];
      FilterMap(keep, f, xs[..|xs| - 1]) + (if keep(x) then [f(x)] else [])
  }

  lemma {:induction false} FilterMapAppend<T, U>(keep: T -> bool, f: T -> U, a: seq<T>, b: seq<T>)
    ensures FilterMap(keep, f, a + b) == FilterMap(keep, f, a) + FilterMap(keep, f, b)
    decreases |b|
  {
    if b == [] {
      assert a + b == a;
    } else {
      var b', x := b[..|b| - 1], b[|b| - 1];
      FilterMapAppend(keep, f, a, b');
      assert (a + b)[..|a + b| - 1] == a + b';
      assert (a + b)[|a + b| - 1] == x;
    }
  }

  lemma FilterMapAround<T, U>(keep: T -> bool, f: T -> U, a: seq<T>, x: T, b: seq<T>)
    ensures FilterMap(keep, f, a + [x] + b)
         == FilterMap(keep, f, a) + (if keep(x) then [f(x)] else []) + FilterMap(keep, f, b)
    ensures !keep(x) ==> FilterMap(keep, f, a + [x] + b) == FilterMap(keep, f, a + b)
    ensures keep(x) ==> |FilterMap(keep, f, a + [x] + b)| == |FilterMap(keep, f, a + b)| + 1
    ensures keep(x) ==> |FilterMap(keep, f, a)| < |FilterMap(keep, f, a + [x] + b)|
                        && FilterMap(keep, f, a + [x] + b)[|FilterMap(keep, f, a)|] == f(x)
  {
    assert [x][..0] == [];
    FilterMapAppend(keep, f, a + [x], b);
    FilterMapAppend(keep, f, a, [x]);
    FilterMapAppend(keep, f, a, b);
    var ra, rb := FilterMap(keep, f, a), FilterMap(keep, f, b);
    if keep(x) {
      assert (ra + [f(x)] + rb)[|ra|] == f(x);
    } else {
      assert ra + [] + rb == ra + rb;
    }
  }

  lemma {:induction false} FilterMapEntries<T, U>(keep: T -> bool, f: T -> U, xs: seq<T>, k: nat)
    requires k < |FilterMap(keep, f, xs)|
    ensures exists i :: 0 <= i < |xs| && keep(xs[i]) && FilterMap(keep, f, xs)[k] == f(xs[i])
    decreases |xs|
  {
    var init := xs[..|xs| - 1];
    if k < |FilterMap(keep, f, init)| {
      FilterMapEntries(keep, f, init, k);
      var i :| 0 <= i < |init| && keep(init[i]) && FilterMap(keep, f, init)[k] == f(init[i]);
      assert xs[i] == init[i];
    } else {
      var last := |xs| - 1;
      assert keep(xs[last]) && FilterMap(keep, f, xs)[k] == f(xs[last]);
    }
  }

  /** Keep the elements that satisfy `keep`, in order. */
  function Filter<T>(keep: T -> bool, xs: seq<T>): seq<T> {
    if xs == [] then []
    else (if keep(xs[0]) then [xs[0]] else []) + Filter(keep, xs[1..])
  }

  /** Apply `f` to every element, in order. */
  function MapEach<T, U>(f: T -> U, xs: seq<T>): (out: seq<U>)
    ensures |out| == |xs|
    ensures forall k :: 0 <= k < |xs| ==> out[k] == f(xs[k])
  {
    if xs == [] then [] else [f(xs[0])] + MapEach(f, xs[1..])
  }

  lemma {:induction false} FilterMapIsFilterThenMap<T, U>(keep: T -> bool, f: T -> U, xs: seq<T>)
    ensures FilterMap(keep, f, xs) == MapEach(f, Filter(keep, xs))
    decreases |xs|
  {
    if xs != [] {
      FilterMapIsFilterThenMap(keep, f, xs[1..]);
      FilterMapAround(keep, f, [], xs[0], xs[1..]);
      assert [] + [xs[0]] + xs[1..] == xs;
      var rest := Filter(keep, xs[1..]);
      if keep(xs[0]) {
        assert Filter(keep, xs) == [xs[0]] + rest;
        assert ([xs[0]] + rest)[1..] == rest;
      } else {
        assert Filter(keep, xs) == rest;
      }
    }
  }

  /** The refined list: the summaries of the kept videos, built as the loop
      builds it. */
  function Refined(vs: seq<Video>): (out: seq<Summary>)
    ensures |out| <= |vs|
  {
    FilterMap(Kept, Summarize, vs)
  }

  /** The first matching file decides the link, whatever follows it: a later
      "sd" file is never consulted. */
  lemma FirstMatchDecides(files: seq<FileInfo>, i: nat)
    requires i < |files| && IsSdWithLink(files[i])
    requires forall j :: 0 <= j < i ==> !IsSdWithLink(files[j])
    ensures DownloadLink(files) == files[i].link.value
  {
  }

  /** A video whose first "sd" file carries an empty link is dropped, even when
      a later "sd" file carries a usable one. */
  lemma EmptyFirstSdLinkDropsVideo(v: Video, i: nat, j: nat)
    requires i < j < |FilesOf(v)|
    requires IsSdWithLink(FilesOf(v)[i]) && FilesOf(v)[i].link.value == ""
    requires forall k :: 0 <= k < i ==> !IsSdWithLink(FilesOf(v)[k])
    requires IsSdWithLink(FilesOf(v)[j]) && FilesOf(v)[j].link.value != ""
    ensures !Kept(v)
  {
    FirstMatchDecides(FilesOf(v), i);
  }

  /** A video is kept exactly when some file matches and the first match's link
      is non-empty. */
  lemma KeptIff(v: Video)
    ensures Kept(v) <==> exists i :: 0 <= i < |FilesOf(v)| && IsSdWithLink(FilesOf(v)[i])
                                   && FilesOf(v)[i].link.value != ""
                                   && (forall j :: 0 <= j < i ==> !IsSdWithLink(FilesOf(v)[j]))
  {
    var files := FilesOf(v);
    if Kept(v) {
      var i := FirstSdIndex(files).value;
      assert 0 <= i < |files| && IsSdWithLink(files[i]) && files[i].link.value != "";
    } else {
      forall i | 0 <= i < |files| && IsSdWithLink(files[i]) && (forall j :: 0 <= j < i ==> !IsSdWithLink(files[j]))
        ensures files[i].link.value == ""
      {
        FirstMatchDecides(files, i);
      }
    }
  }

  /** Refinement distributes over concatenation: the reply for a list is the
      reply for its first part followed by the reply for the rest, so the
      input order is kept. */
  lemma RefinedAppend(a: seq<Video>, b: seq<Video>)
    ensures Refined(a + b) == Refined(a) + Refined(b)
  {
    FilterMapAppend(Kept, Summarize, a, b);
  }

  /** A video's place in the list: the reply is the reply for the videos before
      it, then its summary if it is kept, then the reply for the videos after
      it. A dropped video leaves no trace; a kept one yields exactly one entry,
      its summary, right after the entries of the videos before it. */
  lemma DroppedOrSummarized(a: seq<Video>, v: Video, b: seq<Video>)
    ensures Refined(a + [v] + b) == Refined(a) + (if Kept(v) then [Summarize(v)] else []) + Refined(b)
    ensures !Kept(v) ==> Refined(a + [v] + b) == Refined(a + b)
    ensures Kept(v) ==> |Refined(a + [v] + b)| == |Refined(a + b)| + 1
    ensures Kept(v) ==> |Refined(a)| < |Refined(a + [v] + b)| && Refined(a + [v] + b)[|Refined(a)|] == Summarize(v)
  {
    FilterMapAround(Kept, Summarize, a, v, b);
  }

  /** The loop-shaped definition agrees with keeping the surviving videos and
      then summarising each one. */
  lemma RefinedIsFilterThenMap(vs: seq<Video>)
    ensures Refined(vs) == MapEach(Summarize, Filter(Kept, vs))
  {
    FilterMapIsFilterThenMap(Kept, Summarize, vs);
  }

  /** Every entry of the reply is the summary of some kept input video, so its
      download link is that video's first "sd" link, and it is non-empty. */
  lemma RefinedEntriesFromKeptVideos(vs: seq<Video>, k: nat)
    requires k < |Refined(vs)|
    ensures exists i :: 0 <= i < |vs| && Kept(vs[i]) && Refined(vs)[k] == Summarize(vs[i])
    ensures Refined(vs)[k].downloadUrl != ""
  {
    FilterMapEntries(Kept, Summarize, vs, k);
    var i :| 0 <= i < |vs| && Kept(vs[i]) && Refined(vs)[k] == Summarize(vs[i]);
    assert Summarize(vs[i]).downloadUrl == DownloadLink(FilesOf(vs[i]));
  }


  /** Two videos, the first kept and the second without any "sd" file: the
      reply holds exactly one entry, the first video's summary. */
  lemma OneOfTwoVideosKept(withSd: Video, withoutSd: Video)
    requires Kept(withSd)
    requires forall j :: 0 <= j < |FilesOf(withoutSd)| ==> !IsSdWithLink(FilesOf(withoutSd)[j])
    ensures Refined([withSd, withoutSd]) == [Summarize(withSd)]
  {
    assert !Kept(withoutSd);
    DroppedOrSummarized([], withSd, [withoutSd]);
    DroppedOrSummarized([], withoutSd, []);
    assert [] + [withSd] + [withoutSd] == [withSd, withoutSd];
    assert [] + [withoutSd] + [] == [withoutSd];
    assert Refined([]) == [];
  }

  /** The inner `for ... break` scan over a video's files. */
  method ScanForSdLink(files: seq<FileInfo>) returns (link: string)
    ensures link == DownloadLink(files)
  {
    link := "";
    var i := 0;
    while i < |files|
      invariant 0 <= i <= |files|
      invariant forall j :: 0 <= j < i ==> !IsSdWithLink(files[j])
      invariant link == ""
    {
      if IsSdWithLink(files[i]) {
        link := files[i].link.value;
        FirstMatchDecides(files, i);
        return;
      }
      i := i + 1;
    }
  }

  /** The refinement loop: appends one summary per video whose scan found a
      non-empty link, and wraps the list in a success reply. */
  method Refine(data: Payload) returns (result: SearchResult)
    ensures result.status == SuccessStatus
    ensures result.videos == Refined(VideosOf(data))
    ensures data.videos.None? ==> result.videos == []
  {
    var videoList: seq<Summary> := [];
    if data.videos.Some? {
      var vs := data.videos.value;
      for i := 0 to |vs|
        invariant videoList == Refined(vs[..i])
      {
        var video := vs[i];
        var downloadLink := ScanForSdLink(FilesOf(video));
        if downloadLink != "" {
          videoList := videoList + [Summary(video.id, PhotographerOf(video), downloadLink)];
        }
        assert vs[..i + 1][..i] == vs[..i];
      }
      assert vs[..|vs|] == vs;
    }
    result := SearchResult(SuccessStatus, videoList);
  }
}
