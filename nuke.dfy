/**
 * `runNuke` (skysweep.js): after a typed confirmation, fetch every record of
 * one collection, keep those the type and tag filters select, and delete them
 * one by one, counting the deletions that succeed.
 *
 * The record listing is a page oracle as in `Paginate`, the typed answer is a
 * parameter, and `deleteOk(k)` says whether deleting the `k`-th selected
 * record succeeded. Requested sleeps are logged.
 */
module Nuke {
  import opened Common
  import opened Text
  import opened Paginate
  import opened Media

  /**
   * A record of the repository: its URI, whether `value.embed.images` is
   * present, and the label values of `value.labels`. A self-label object
   * contributes its `values` and a plain label array its entries; either way
   * these are the values listed here.
   */
  datatype RepoRecord = RepoRecord(uri: string, embedImages: bool, labels: seq<string>)

  /** The four keys of `typeMap`. */
  datatype NukeType = AllPosts | MediaPosts | TextPosts | Likes

  function ParseNukeType(name: string): (t: Option<NukeType>)
    ensures t.Some? <==> name in ["all-posts", "media-posts", "text-posts", "likes"]
  {
    if name == "all-posts" then Some(AllPosts)
    else if name == "media-posts" then Some(MediaPosts)
    else if name == "text-posts" then Some(TextPosts)
    else if name == "likes" then Some(Likes)
    else None
  }

  function CollectionOf(t: NukeType): string {
    if t == Likes then "app.bsky.feed.like" else "app.bsky.feed.post"
  }

  /** `baseFilter`: media posts need images, text posts must have none. */
  predicate BaseFilter(t: NukeType, r: RepoRecord) {
    match t
    case MediaPosts => r.embedImages
    case TextPosts => !r.embedImages
    case _ => true
  }

  function LabelSet(r: RepoRecord): set<string> {
    set l | l in r.labels
  }

  /** `filterFn`: every like; a post passes `baseFilter` and the shared tag filter. */
  predicate Keep(t: NukeType, filterTags: string, untaggedOnly: bool, r: RepoRecord) {
    t == Likes || (BaseFilter(t, r) && TagFilter(LabelSet(r), filterTags, untaggedOnly))
  }

  /** `nuke`, `filterTags` ("" when absent), `untaggedOnly` and `delay` of the settings. */
  datatype NukeSettings = NukeSettings(nuke: string, filterTags: string, untaggedOnly: bool, delay: real)

  /** One `deleteRecord` call: the record key it named and whether it succeeded. */
  datatype Deletion = Deletion(rkey: string, ok: bool)

  datatype NukeOutcome =
    | NotRequested
    | InvalidType(name: string)
    | Cancelled
    | Nuked(collection: string, toDelete: seq<RepoRecord>, deletions: seq<Deletion>, deleted: nat, sleeps: seq<real>)

  /** `fetchAllRecords`: all records of the walk, or none once a request fails. */
  function FetchedRecords(pages: seq<Page<RepoRecord>>): seq<RepoRecord> {
    var w := RecordWalk(pages, 0);
    if w.failed then [] else w.items
  }

  function ToDelete(t: NukeType, s: NukeSettings, records: seq<RepoRecord>): seq<RepoRecord> {
    Filter(records, (r: RepoRecord) => Keep(t, s.filterTags, s.untaggedOnly, r))
  }

  /** The delete calls, one per selected record, each naming the last segment of its URI. */
  function Deletions(toDelete: seq<RepoRecord>, deleteOk: nat -> bool): seq<Deletion> {
    seq(|toDelete|, k requires 0 <= k < |toDelete| => Deletion(LastSegment(toDelete[k].uri, '/'), deleteOk(k)))
  }

  /** One pause of `delay` after each successful delete. */
  function Pauses(count: nat, delay: real): seq<real> {
    seq(count, _ requires true => delay)
  }

  /** The whole of `runNuke`: the two gates, then the filtered deletion. */
  function NukeSpec(s: NukeSettings, confirm: string, pages: seq<Page<RepoRecord>>, deleteOk: nat -> bool): NukeOutcome {
    if s.nuke == "" then NotRequested
    else match ParseNukeType(s.nuke)
      case None => InvalidType(s.nuke)
      case Some(t) =>
        if confirm != s.nuke then Cancelled
        else
          var toDelete := ToDelete(t, s, FetchedRecords(pages));
          var deleted := CountTrue(deleteOk, |toDelete|);
          Nuked(CollectionOf(t), toDelete, Deletions(toDelete, deleteOk), deleted, Pauses(deleted, s.delay))
  }

  /** The delete loop: every selected record is tried; a failure is logged and the loop goes on. */
  method DeleteAll(toDelete: seq<RepoRecord>, deleteOk: nat -> bool, delay: real)
    returns (deletions: seq<Deletion>, deleted: nat, sleeps: seq<real>)
    ensures deletions == Deletions(toDelete, deleteOk)
    ensures deleted == CountTrue(deleteOk, |toDelete|)
    ensures sleeps == Pauses(deleted, delay)
  {
    deletions, deleted, sleeps := [], 0, [];
    for k := 0 to |toDelete|
      invariant deletions == Deletions(toDelete[..k], deleteOk)
      invariant deleted == CountTrue(deleteOk, k)
      invariant sleeps == Pauses(deleted, delay)
    {
      var ok := deleteOk(k);
      deletions := deletions + [Deletion(LastSegment(toDelete[k].uri, '/'), ok)];
      if ok {
        deleted := deleted + 1;
        sleeps := sleeps + [delay];
      }
    }
    assert toDelete[..|toDelete|] == toDelete;
  }

  /** `runNuke`, with the typed confirmation `confirm`. */
  method RunNuke(s: NukeSettings, confirm: string, pages: seq<Page<RepoRecord>>, deleteOk: nat -> bool)
    returns (out: NukeOutcome)
    ensures out == NukeSpec(s, confirm, pages, deleteOk)
  {
    if s.nuke == "" {
      return NotRequested;
    }
    var t := ParseNukeType(s.nuke);
    if t.None? {
      return InvalidType(s.nuke);
    }
    if confirm != s.nuke {
      return Cancelled;
    }
    var records := FetchAllRecords(pages);
    var toDelete := ToDelete(t.value, s, records);
    var deletions, deleted, sleeps := DeleteAll(toDelete, deleteOk, s.delay);
    out := Nuked(CollectionOf(t.value), toDelete, deletions, deleted, sleeps);
  }

  // ---------------- Properties ----------------

  /**
   * Deletion happens only behind both gates: a known type and a confirmation
   * typed exactly as the type. Otherwise there is no delete call at all.
   */
  lemma NukeGate(s: NukeSettings, confirm: string, pages: seq<Page<RepoRecord>>, deleteOk: nat -> bool)
    ensures var out := NukeSpec(s, confirm, pages, deleteOk);
      (out.Nuked? <==> ParseNukeType(s.nuke).Some? && confirm == s.nuke) &&
      (out.Nuked? ==> out.collection == CollectionOf(ParseNukeType(s.nuke).value))
  {
  }

  /**
   * The delete loop tries every selected record exactly once, in order; the
   * count rises only on success, so it never exceeds the number selected.
   */
  lemma DeletedCount(s: NukeSettings, confirm: string, pages: seq<Page<RepoRecord>>, deleteOk: nat -> bool)
    ensures var out := NukeSpec(s, confirm, pages, deleteOk);
      out.Nuked? ==>
        |out.deletions| == |out.toDelete| && out.deleted <= |out.toDelete| &&
        out.deleted == CountOk(out.deletions) && |out.sleeps| == out.deleted
  {
    var out := NukeSpec(s, confirm, pages, deleteOk);
    if out.Nuked? {
      CountOkDeletions(out.toDelete, deleteOk, |out.toDelete|);
      assert Deletions(out.toDelete, deleteOk)[..|out.toDelete|] == out.deletions;
    }
  }

  /** How many of the logged delete calls succeeded. */
  function CountOk(deletions: seq<Deletion>): nat {
    if |deletions| == 0 then 0
    else CountOk(deletions[..|deletions| - 1]) + (if deletions[|deletions| - 1].ok then 1 else 0)
  }

  lemma {:induction false} CountOkDeletions(toDelete: seq<RepoRecord>, deleteOk: nat -> bool, n: nat)
    requires n <= |toDelete|
    ensures CountOk(Deletions(toDelete, deleteOk)[..n]) == CountTrue(deleteOk, n)
  {
    if n > 0 {
      CountOkDeletions(toDelete, deleteOk, n - 1);
      var d := Deletions(toDelete, deleteOk);
      assert d[..n][..n - 1] == d[..n - 1];
    }
  }

  /**
   * What the type selects: `media-posts` deletes only records with images
   * and `text-posts` only records without; a post is deleted only if it
   * passes the tag filter; a `likes` run deletes every fetched like. Every
   * fetched record the filters accept is selected.
   */
  lemma SelectionByType(t: NukeType, s: NukeSettings, records: seq<RepoRecord>)
    ensures var sel := ToDelete(t, s, records);
      (forall j :: 0 <= j < |sel| ==> sel[j] in records) &&
      (t == MediaPosts ==> forall j :: 0 <= j < |sel| ==> sel[j].embedImages) &&
      (t == TextPosts ==> forall j :: 0 <= j < |sel| ==> !sel[j].embedImages) &&
      (t != Likes ==> forall j :: 0 <= j < |sel| ==>
         TagFilter(LabelSet(sel[j]), s.filterTags, s.untaggedOnly)) &&
      (forall j :: 0 <= j < |records| && Keep(t, s.filterTags, s.untaggedOnly, records[j]) ==> records[j] in sel) &&
      (t == Likes ==> forall j :: 0 <= j < |records| ==> records[j] in sel)
  {
  }

  /** A failed listing leaves nothing to delete. */
  lemma FailedListingDeletesNothing(s: NukeSettings, confirm: string, pages: seq<Page<RepoRecord>>, deleteOk: nat -> bool)
    requires RecordWalk(pages, 0).failed
    ensures var out := NukeSpec(s, confirm, pages, deleteOk);
      out.Nuked? ==> out.toDelete == [] && out.deletions == [] && out.deleted == 0
  {
  }
}
