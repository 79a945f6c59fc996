/**
 * `downloadAllMedia` (skysweep.js): walk the author feed, drop reposts, keep
 * the posts the tag filter accepts, queue one download per photo and per
 * video, and run the queue in windows of ten.
 *
 * The feed is a page oracle as in `Paginate`, and `fetchOk(k)` says whether
 * the download of queue entry `k` succeeded. The tasks of a window run
 * concurrently in the source; here they run in queue order, which gives the
 * same counts because the tasks do not depend on each other.
 */
module Media {
  import opened Common
  import opened Text
  import opened Paginate

  /** An image of an embed: its full-size URL and its MIME type, if any. */
  datatype Image = Image(fullsize: string, mimeType: Option<string>)

  /**
   * A post's embed: its `$type`, `images` and `media.images` (absent, or an
   * array that may be empty) and the blob `cid`.
   */
  datatype Embed = Embed(embedType: string, images: Option<seq<Image>>, mediaImages: Option<seq<Image>>, cid: string)

  /** The post view: its URI, author DID, moderation labels, self labels and embed. */
  datatype PostView = PostView(
    uri: string,
    authorDid: string,
    labels: seq<string>,
    selfLabels: seq<string>,
    embed: Option<Embed>)

  /** A feed entry; `isRepost` is a present `reason` (a repost or a pin). */
  datatype FeedItem = FeedItem(post: PostView, isRepost: bool)

  // ---------------- Tag filter ----------------

  /** `new Set(filterTags.split(",").map(t => t.trim()))`. */
  function TagSet(filterTags: string): set<string> {
    var parts := Split(filterTags, ',');
    set i | 0 <= i < |parts| :: Trim(parts[i])
  }

  /**
   * The tag filter shared by the media download and the nuke: no filter when
   * neither option is set; `untaggedOnly` keeps exactly the unlabelled posts
   * and takes precedence; otherwise a post needs a label in the tag set.
   */
  predicate TagFilter(labels: set<string>, filterTags: string, untaggedOnly: bool) {
    if filterTags == "" && !untaggedOnly then true
    else if untaggedOnly then labels == {}
    else labels * TagSet(filterTags) != {}
  }

  /** Every label of a post view: its moderation labels and its record's self labels. */
  function LabelsOf(p: PostView): set<string> {
    (set l | l in p.labels) + (set l | l in p.selfLabels)
  }

  /** A comma-joined tag list selects the posts carrying one of the (trimmed) tags. */
  lemma TagFilterListed(labels: set<string>, tags: seq<string>)
    requires |tags| >= 1 && forall i :: 0 <= i < |tags| ==> ',' !in tags[i]
    requires Join(tags, ",") != ""
    ensures TagFilter(labels, Join(tags, ","), false) <==>
      exists i :: 0 <= i < |tags| && Trim(tags[i]) in labels
  {
    SplitOfJoin(tags, ',');
    var ts := TagSet(Join(tags, ","));
    assert ts == set i | 0 <= i < |tags| :: Trim(tags[i]);
    if exists i :: 0 <= i < |tags| && Trim(tags[i]) in labels {
      var i :| 0 <= i < |tags| && Trim(tags[i]) in labels;
      assert Trim(tags[i]) in labels * ts;
    }
  }

  /** The posts the download works on: reposts dropped, then the tag filter when it is active. */
  function Selected(items: seq<FeedItem>, filterTags: string, untaggedOnly: bool): seq<FeedItem> {
    var originals := Filter(items, (it: FeedItem) => !it.isRepost);
    if filterTags != "" || untaggedOnly then
      Filter(originals, (it: FeedItem) => TagFilter(LabelsOf(it.post), filterTags, untaggedOnly))
    else originals
  }

  /** A selected post is an original post of the feed that passes the tag filter, and every such post is selected. */
  lemma SelectedIff(items: seq<FeedItem>, filterTags: string, untaggedOnly: bool)
    ensures var sel := Selected(items, filterTags, untaggedOnly);
      (forall j :: 0 <= j < |sel| ==>
         sel[j] in items && !sel[j].isRepost && TagFilter(LabelsOf(sel[j].post), filterTags, untaggedOnly)) &&
      (forall j :: 0 <= j < |items| && !items[j].isRepost && TagFilter(LabelsOf(items[j].post), filterTags, untaggedOnly) ==>
         items[j] in sel)
  {
    var originals := Filter(items, (it: FeedItem) => !it.isRepost);
    forall j | 0 <= j < |items| && !items[j].isRepost
      ensures items[j] in originals
    {
    }
  }

  // ---------------- Download queue ----------------

  /** One download: the URL to fetch and the file name to save it under. */
  datatype Task = Task(url: string, filename: string)

  /** The part after the first `/` of the MIME type (`split("/")[1]`), or `jpg`. */
  function Extension(mime: Option<string>): string {
    if mime.Some? && '/' in mime.value then
      SplitHasSecond(mime.value, '/');
      Split(mime.value, '/')[1]
    else "jpg"
  }

  /** `embed.images || embed.media?.images || []`: an empty `images` array still wins. */
  function ImagesOf(e: Embed): seq<Image> {
    if e.images.Some? then e.images.value
    else if e.mediaImages.Some? then e.mediaImages.value
    else []
  }

  /** The file name of photo `i` of the post with record key `rkey`. */
  function PhotoName(rkey: string, i: nat, ext: string): string {
    rkey + "_" + NatToString(i) + "." + ext
  }

  function PhotoTask(rkey: string, images: seq<Image>, i: nat): Task
    requires i < |images|
  {
    Task(images[i].fullsize, PhotoName(rkey, i, Extension(images[i].mimeType)))
  }

  function PhotoTasks(rkey: string, images: seq<Image>): seq<Task> {
    seq(|images|, i requires 0 <= i < |images| => PhotoTask(rkey, images, i))
  }

  const VideoEmbedType: string := "app.bsky.embed.video#view"

  function VideoTask(p: PostView, e: Embed, origin: string): Task {
    Task(origin + "/xrpc/com.atproto.sync.getBlob?did=" + p.authorDid + "&cid=" + e.cid,
         LastSegment(p.uri, '/') + "_video.mp4")
  }

  function WantsPhotos(mediaType: string): bool { mediaType == "all" || mediaType == "photos" }

  function WantsVideos(mediaType: string): bool { mediaType == "all" || mediaType == "videos" }

  /** The downloads one post contributes: none without an embed, then its photos, then its video. */
  function TasksFor(p: PostView, mediaType: string, origin: string): seq<Task> {
    match p.embed
    case None => []
    case Some(e) =>
      (if WantsPhotos(mediaType) then PhotoTasks(LastSegment(p.uri, '/'), ImagesOf(e)) else []) +
      (if WantsVideos(mediaType) && e.embedType == VideoEmbedType then [VideoTask(p, e, origin)] else [])
  }

  /** The queue of the posts `items`, in post order. */
  function QueueOf(items: seq<FeedItem>, mediaType: string, origin: string): seq<Task> {
    if |items| == 0 then []
    else QueueOf(items[..|items| - 1], mediaType, origin) + TasksFor(items[|items| - 1].post, mediaType, origin)
  }

  lemma QueueOfSnoc(items: seq<FeedItem>, k: nat, mediaType: string, origin: string)
    requires k < |items|
    ensures QueueOf(items[..k + 1], mediaType, origin) ==
      QueueOf(items[..k], mediaType, origin) + TasksFor(items[k].post, mediaType, origin)
  {
    assert items[..k + 1][..k] == items[..k];
  }

  /** The inner loop over a post's images: one task per image, in order. */
  method AppendPhotos(queue: seq<Task>, rkey: string, images: seq<Image>) returns (q: seq<Task>)
    ensures q == queue + PhotoTasks(rkey, images)
  {
    q := queue;
    for i := 0 to |images|
      invariant q == queue + PhotoTasks(rkey, images)[..i]
    {
      q := q + [PhotoTask(rkey, images, i)];
      assert PhotoTasks(rkey, images)[..i + 1] == PhotoTasks(rkey, images)[..i] + [PhotoTask(rkey, images, i)];
    }
    assert PhotoTasks(rkey, images)[..|images|] == PhotoTasks(rkey, images);
  }

  /** The queue-building loop: skip posts without an embed, then queue photos and the video. */
  method BuildQueue(items: seq<FeedItem>, mediaType: string, origin: string) returns (queue: seq<Task>)
    ensures queue == QueueOf(items, mediaType, origin)
  {
    queue := [];
    for k := 0 to |items|
      invariant queue == QueueOf(items[..k], mediaType, origin)
    {
      QueueOfSnoc(items, k, mediaType, origin);
      var p := items[k].post;
      if p.embed.None? {
        continue;
      }
      var e := p.embed.value;
      var rkey := LastSegment(p.uri, '/');
      ghost var before := queue;
      ghost var photos: seq<Task> := if WantsPhotos(mediaType) then PhotoTasks(rkey, ImagesOf(e)) else [];
      ghost var video: seq<Task> :=
        if WantsVideos(mediaType) && e.embedType == VideoEmbedType then [VideoTask(p, e, origin)] else [];
      assert TasksFor(p, mediaType, origin) == photos + video;
      if WantsPhotos(mediaType) {
        queue := AppendPhotos(queue, rkey, ImagesOf(e));
      }
      assert queue == before + photos;
      if WantsVideos(mediaType) && e.embedType == VideoEmbedType {
        queue := queue + [VideoTask(p, e, origin)];
      }
      AppendAssociative(before, photos, video);
    }
    assert items[..|items|] == items;
  }

  lemma AppendAssociative<T>(a: seq<T>, b: seq<T>, c: seq<T>)
    ensures (a + b) + c == a + (b + c)
  {
  }

  /** `String(n)` gives different digits for different numbers. */
  lemma {:induction false} NatToStringInjective(m: nat, n: nat)
    ensures NatToString(m) == NatToString(n) <==> m == n
  {
    var a, b := NatToString(m), NatToString(n);
    if m >= 10 && n >= 10 {
      NatToStringInjective(m / 10, n / 10);
      assert a == NatToString(m / 10) + [DigitChar(m % 10)];
      assert b == NatToString(n / 10) + [DigitChar(n % 10)];
      if a == b {
        assert a[..|a| - 1] == b[..|b| - 1];
        assert a[|a| - 1] == b[|b| - 1];
      }
    } else if m >= 10 {
      assert |a| >= 2 > |b|;
    } else if n >= 10 {
      assert |b| >= 2 > |a|;
    }
  }

  /** Photos with different positions get different names, whatever their extensions. */
  lemma PhotoNamesDiffer(rkey: string, i: nat, j: nat, e1: string, e2: string)
    requires i != j
    ensures PhotoName(rkey, i, e1) != PhotoName(rkey, j, e2)
  {
    var a, b := NatToString(i), NatToString(j);
    NatToStringInjective(i, j);
    DigitsThenDotDiffer(a, b, e1, e2);
    var pre := rkey + "_";
    assert PhotoName(rkey, i, e1) == pre + (a + "." + e1);
    assert PhotoName(rkey, j, e2) == pre + (b + "." + e2);
    PrefixCancels(pre, a + "." + e1, b + "." + e2);
  }

  /** Two different digit strings stay different once a dot and any suffix follow them. */
  lemma DigitsThenDotDiffer(a: string, b: string, e1: string, e2: string)
    requires a != b
    requires forall k :: 0 <= k < |a| ==> IsDigit(a[k])
    requires forall k :: 0 <= k < |b| ==> IsDigit(b[k])
    ensures a + "." + e1 != b + "." + e2
  {
    var x, y := a + "." + e1, b + "." + e2;
    if |a| < |b| {
      assert x[|a|] == '.' && y[|a|] == b[|a|];
    } else if |b| < |a| {
      assert y[|b|] == '.' && x[|b|] == a[|b|];
    } else {
      assert x[..|a|] == a && y[..|b|] == b;
    }
  }

  lemma PrefixCancels(pre: string, u: string, v: string)
    requires u != v
    ensures pre + u != pre + v
  {
    assert (pre + u)[|pre|..] == u && (pre + v)[|pre|..] == v;
  }

  /** No two tasks of `ts` are saved under the same file name. */
  ghost predicate DistinctNames(ts: seq<Task>) {
    forall a, b :: 0 <= a < b < |ts| ==> ts[a].filename != ts[b].filename
  }

  /** No two downloads of one post are saved under the same file name. */
  lemma DistinctNamesPerPost(p: PostView, mediaType: string, origin: string)
    ensures var ts := TasksFor(p, mediaType, origin);
      forall a, b :: 0 <= a < b < |ts| ==> ts[a].filename != ts[b].filename
  {
    if p.embed.Some? {
      var e := p.embed.value;
      var rkey := LastSegment(p.uri, '/');
      var photos := if WantsPhotos(mediaType) then PhotoTasks(rkey, ImagesOf(e)) else [];
      PhotoNamesDistinct(rkey, ImagesOf(e));
      assert DistinctNames(photos);
      if WantsVideos(mediaType) && e.embedType == VideoEmbedType {
        var v := VideoTask(p, e, origin);
        assert v.filename == rkey + "_video.mp4";
        PhotoNamesNotVideo(rkey, ImagesOf(e));
        DistinctNamesSnoc(photos, v);
        assert TasksFor(p, mediaType, origin) == photos + [v];
      } else {
        assert TasksFor(p, mediaType, origin) == photos + [];
      }
    }
  }

  lemma PhotoNamesDistinct(rkey: string, images: seq<Image>)
    ensures DistinctNames(PhotoTasks(rkey, images))
  {
    var ts := PhotoTasks(rkey, images);
    forall a, b | 0 <= a < b < |ts| ensures ts[a].filename != ts[b].filename {
      PhotoNamesDiffer(rkey, a, b, Extension(images[a].mimeType), Extension(images[b].mimeType));
    }
  }

  /** A photo name has a digit where the video name has its `v`. */
  lemma PhotoNamesNotVideo(rkey: string, images: seq<Image>)
    ensures forall a :: 0 <= a < |images| ==> PhotoTasks(rkey, images)[a].filename != rkey + "_video.mp4"
  {
    forall a | 0 <= a < |images| ensures PhotoTasks(rkey, images)[a].filename != rkey + "_video.mp4" {
      var k := |rkey| + 1;
      var name := PhotoName(rkey, a, Extension(images[a].mimeType));
      assert name[k] == NatToString(a)[0];
      assert (rkey + "_video.mp4")[k] == 'v';
    }
  }

  lemma DistinctNamesSnoc(ts: seq<Task>, t: Task)
    requires DistinctNames(ts)
    requires forall a :: 0 <= a < |ts| ==> ts[a].filename != t.filename
    ensures DistinctNames(ts + [t])
  {
  }

  // ---------------- Windows of ten ----------------

  const WINDOW: nat := 10

  function Min(a: nat, b: nat): nat { if a < b then a else b }

  /** The progress line after each window: how many downloads have finished. */
  function Progress(n: nat): seq<nat> {
    ProgressAfter((n + WINDOW - 1) / WINDOW, n)
  }

  /** The progress counts of the first `m` windows of a queue of length `n`. */
  function ProgressAfter(m: nat, n: nat): seq<nat> {
    seq(m, w requires 0 <= w => Min(WINDOW * (w + 1), n))
  }

  lemma ProgressAfterSnoc(m: nat, n: nat)
    ensures ProgressAfter(m + 1, n) == ProgressAfter(m, n) + [Min(WINDOW * (m + 1), n)]
  {
  }

  /** The progress counts rise by a full window each time and the last one is the queue length. */
  lemma ProgressShape(n: nat)
    ensures var pr := Progress(n);
      (n == 0 <==> |pr| == 0) &&
      (forall w :: 0 <= w < |pr| - 1 ==> pr[w] == WINDOW * (w + 1)) &&
      (|pr| > 0 ==> pr[|pr| - 1] == n)
  {
    var pr := Progress(n);
    var windows := (n + WINDOW - 1) / WINDOW;
    assert WINDOW * windows <= n + WINDOW - 1 < WINDOW * (windows + 1);
  }

  /**
   * The window loop: each window is `queue[i .. i + 10]`, every task is tried
   * exactly once in queue order, and each finished download counts as a
   * success or a failure.
   */
  method ProcessQueue(queue: seq<Task>, fetchOk: nat -> bool)
    returns (success: nat, fail: nat, progress: seq<nat>, attempted: seq<nat>)
    ensures success == CountTrue(fetchOk, |queue|) && success + fail == |queue|
    ensures attempted == seq(|queue|, k requires 0 <= k => k)
    ensures progress == Progress(|queue|)
  {
    var n := |queue|;
    success, fail, progress, attempted := 0, 0, [], [];
    var i: nat := 0;
    var windows: nat := 0;
    while i < n
      invariant i == WINDOW * windows && (windows == 0 || i - WINDOW < n)
      invariant var done := Min(i, n);
        success == CountTrue(fetchOk, done) && success + fail == done &&
        attempted == seq(done, k requires 0 <= k => k)
      invariant progress == ProgressAfter(windows, n)
      decreases n - i
    {
      var end := Min(i + WINDOW, n);
      success, fail, attempted := RunWindow(fetchOk, i, end, success, fail, attempted);
      ProgressAfterSnoc(windows, n);
      progress := progress + [success + fail];
      i := i + WINDOW;
      windows := windows + 1;
    }
    assert windows == (n + WINDOW - 1) / WINDOW;
  }

  /**
   * One window: the downloads `start .. end - 1`, each counted as a success or
   * a failure, added to the counts of the downloads before `start`.
   */
  method RunWindow(fetchOk: nat -> bool, start: nat, end: nat, success0: nat, fail0: nat, attempted0: seq<nat>)
    returns (success: nat, fail: nat, attempted: seq<nat>)
    requires start <= end
    requires success0 == CountTrue(fetchOk, start) && success0 + fail0 == start
    requires attempted0 == seq(start, k requires 0 <= k => k)
    ensures success == CountTrue(fetchOk, end) && success + fail == end
    ensures attempted == seq(end, k requires 0 <= k => k)
  {
    success, fail, attempted := success0, fail0, attempted0;
    for j := start to end
      invariant success == CountTrue(fetchOk, j) && success + fail == j
      invariant attempted == seq(j, k requires 0 <= k => k)
    {
      if fetchOk(j) {
        success := success + 1;
      } else {
        fail := fail + 1;
      }
      attempted := attempted + [j];
    }
  }

  // ---------------- The whole download ----------------

  /** `filterTags` ("" when absent), `untaggedOnly` and `media-type` of the settings. */
  datatype MediaSettings = MediaSettings(filterTags: string, untaggedOnly: bool, mediaType: string)

  /** What a download that got its feed did. */
  datatype DownloadReport = DownloadReport(
    queue: seq<Task>,
    success: nat,
    fail: nat,
    progress: seq<nat>,
    attempted: seq<nat>)

  /**
   * `downloadAllMedia`: nothing once a feed request fails; otherwise the
   * queue of the selected posts, run in windows (an empty queue runs none).
   */
  method DownloadAllMedia(s: MediaSettings, feedPages: seq<Page<FeedItem>>, origin: string, fetchOk: nat -> bool)
    returns (r: Option<DownloadReport>)
    ensures var w := RecordWalk(feedPages, 0);
      (r.None? <==> w.failed) &&
      (r.Some? ==>
         var q := QueueOf(Selected(w.items, s.filterTags, s.untaggedOnly), s.mediaType, origin);
         r.value.queue == q && r.value.success == CountTrue(fetchOk, |q|) &&
         r.value.success + r.value.fail == |q| && r.value.progress == Progress(|q|) &&
         r.value.attempted == seq(|q|, k requires 0 <= k => k))
  {
    var posts := FetchAuthorFeed(feedPages);
    if posts.None? {
      return None;
    }
    var selected := Selected(posts.value, s.filterTags, s.untaggedOnly);
    var queue := BuildQueue(selected, s.mediaType, origin);
    if |queue| == 0 {
      assert Progress(0) == [];
      return Some(DownloadReport(queue, 0, 0, [], []));
    }
    var success, fail, progress, attempted := ProcessQueue(queue, fetchOk);
    r := Some(DownloadReport(queue, success, fail, progress, attempted));
  }
}
