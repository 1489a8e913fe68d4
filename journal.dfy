/**
 * The observation journal of the image analysis (image_analysis/data_handler.py):
 * an append-only list of frame records with a `saved` watermark, persisted
 * by appending one JSON line per record to "__data__.json".
 */
module Journal {
  import opened Wrappers
  import opened Observation
  import opened Grouping

  const FileName := "__data__.json"
  const FilteredFileName := "__data_filtered__.json"

  /**
   * The journal file as the loader sees it: one record per line, or a
   * JSON array (maybe followed by lines appended later), or text that is
   * not JSON.
   */
  datatype JournalFile =
    | Lines(records: seq<Frame>)
    | Array(records: seq<Frame>, appended: seq<Frame>)
    | Garbled

  /** Reading the file: an array parses only when nothing follows it. */
  function Load(f: JournalFile): Option<seq<Frame>> {
    match f
    case Lines(rs) => Some(rs)
    case Array(rs, more) => if more == [] then Some(rs) else None
    case Garbled => None
  }

  /** The file after appending one line per record; opening in append mode creates it. */
  function Appended(f: Option<JournalFile>, rs: seq<Frame>): JournalFile {
    match f
    case None => Lines(rs)
    case Some(Lines(old_)) => Lines(old_ + rs)
    case Some(Array(a, more)) => Array(a, more + rs)
    case Some(Garbled) => Garbled
  }

  /** The records written to the file, whether or not the loader can read them back. */
  function Written(f: Option<JournalFile>): Option<seq<Frame>> {
    match f
    case None => Some([])
    case Some(Lines(rs)) => Some(rs)
    case Some(Array(a, more)) => Some(a + more)
    case Some(Garbled) => None
  }

  lemma AppendedWrites(f: Option<JournalFile>, rs: seq<Frame>)
    requires Written(f).Some?
    ensures Written(Some(Appended(f, rs))) == Some(Written(f).value + rs)
  {
    match f
    case None =>
      assert [] + rs == rs;
    case Some(Lines(x)) =>
    case Some(Array(a, more)) =>
      assert a + (more + rs) == (a + more) + rs;
  }

  lemma AppendedTwice(f: Option<JournalFile>, a: seq<Frame>, b: seq<Frame>)
    ensures Appended(Some(Appended(f, a)), b) == Appended(f, a + b)
  {
    match f
    case None =>
    case Some(Lines(x)) =>
      assert (x + a) + b == x + (a + b);
    case Some(Array(x, more)) =>
      assert (more + a) + b == more + (a + b);
    case Some(Garbled) =>
  }

  class DataHandler {
    /** The records, loaded ones first, then those handed out since. */
    var items: seq<Frame>
    /** How many of `items` are in the journal file. */
    var saved: nat
    var journal: Option<JournalFile>
    /** The content of "__data_filtered__.json", once written. */
    var filtered: Option<Summaries>

    /** The watermark is within the list, and the file holds exactly the records below it. */
    predicate Valid()
      reads this
    {
      saved <= |items| && Written(journal) == Some(items[..saved])
    }

    /** A handler over a journal that holds exactly `rs`, all of them saved. */
    constructor Init(j: Option<JournalFile>, rs: seq<Frame>, f: Option<Summaries>)
      requires Written(j) == Some(rs)
      ensures journal == j && items == rs && saved == |rs| && filtered == f
      ensures Valid()
    {
      journal := j;
      items := rs;
      saved := |rs|;
      filtered := f;
      new;
      assert items[..saved] == rs;
    }

    /**
     * __init__: a missing file gives an empty journal; an existing one is read
     * back and everything read counts as saved.  A file the loader cannot
     * read raises.
     */
    static method Open(j: Option<JournalFile>, f: Option<Summaries>) returns (r: Result<DataHandler>)
      ensures r.Ok? <==> (j.None? || Load(j.value).Some?)
      ensures r.Ok? ==> fresh(r.value) && r.value.Valid() && r.value.journal == j && r.value.filtered == f
      ensures r.Ok? ==> r.value.items == (if j.None? then [] else Load(j.value).value)
      ensures r.Ok? ==> r.value.saved == |r.value.items|
      ensures r.Err? ==> r.error == "JSONDecodeError"
    {
      if j.None? {
        var h := new DataHandler.Init(j, [], f);
        return Ok(h);
      }
      var content := Load(j.value);
      if content.None? {
        return Err("JSONDecodeError");
      }
      if j.value.Array? {
        assert j.value.records + [] == j.value.records;
      }
      var h := new DataHandler.Init(j, content.value, f);
      return Ok(h);
    }

    /** _get_new_item: appends a fresh record; its id is its index. */
    method GetNewItem(time: int) returns (id: nat)
      requires Valid()
      modifies this`items
      ensures Valid() && saved <= id
      ensures id == |old(items)| && id < |items|
      ensures items == old(items) + [EmptyFrame(time)]
    {
      id := |items|;
      assert (items + [EmptyFrame(time)])[..saved] == items[..saved];
      items := items + [EmptyFrame(time)];
    }

    /** Filling in the record handed out as `id`. */
    method Update(id: nat, f: Frame)
      requires Valid() && saved <= id < |items|
      modifies this`items
      ensures Valid()
      ensures items == old(items)[id := f]
    {
      assert items[id := f][..saved] == items[..saved];
      items := items[id := f];
    }

    /** _save: appends the unsaved records in order, one line each, and moves the watermark. */
    method Save()
      requires Valid()
      modifies this`journal, this`saved
      ensures journal == Some(Appended(old(journal), old(items[saved..])))
      ensures saved == |items|
      ensures Valid()
    {
      var j := Some(Appended(journal, []));
      assert items[saved..saved] == [];
      var i := saved;
      while i < |items|
        invariant journal == old(journal) && saved == old(saved) && Valid()
        invariant saved <= i <= |items|
        invariant j == Some(Appended(journal, items[saved..i]))
      {
        AppendedTwice(journal, items[saved..i], [items[i]]);
        assert items[saved..i] + [items[i]] == items[saved..i + 1];
        j := Some(Appended(j, [items[i]]));
        i := i + 1;
      }
      AppendedWrites(journal, items[saved..]);
      assert items[..saved] + items[saved..] == items[..|items|];
      journal := j;
      saved := |items|;
    }

    /** __enter__. */
    method Enter(time: int) returns (id: nat)
      requires Valid()
      modifies this`items
      ensures Valid() && saved <= id
      ensures id == |old(items)| && id < |items|
      ensures items == old(items) + [EmptyFrame(time)]
    {
      id := GetNewItem(time);
    }

    /** __exit__: saves whatever happened inside the block. */
    method Exit()
      requires Valid()
      modifies this`journal, this`saved
      ensures journal == Some(Appended(old(journal), old(items[saved..])))
      ensures saved == |items|
      ensures Valid()
    {
      Save();
    }

    /** get_filterd_items: groups, clusters and averages, then stores the result. */
    method GetFilteredItems(dis: real, cluster: Labelling) returns (r: Result<Summaries>)
      requires LabelsEveryPoint(cluster)
      modifies this`filtered
      ensures r.Ok? <==> FilteredOf(items, dis, cluster).Some?
      ensures r.Ok? ==> r.value == FilteredOf(items, dis, cluster).value
      ensures filtered == (if r.Ok? then Some(r.value) else old(filtered))
    {
      var t := ObjTree(items);
      var s := SortList(t, dis, cluster);
      if s.Err? {
        return Err(s.error);
      }
      var m := GetMean(s.value);
      if m.Err? {
        return Err(m.error);
      }
      filtered := Some(m.value);
      return m;
    }
  }

  /** The means of the clusters of the stamped tree, when sort_list and get_mean both succeed. */
  function FilteredOf(frames: seq<Frame>, dis: real, cluster: Labelling): Option<Summaries>
    requires LabelsEveryPoint(cluster)
  {
    var t := PlaceAll(map[], AllStamped(frames));
    if !TreeLocated(t) || !TreeGroupsNonEmpty(t) then None
    else
      var sorted := SortedSpec(t, dis, cluster);
      if !TreeSummarizable(sorted) then None else Some(MeansSpec(sorted))
  }

  // ---------------------------------------------------------------------------
  // Properties
  // ---------------------------------------------------------------------------

  /**
   * Saving and reopening: a journal kept in line form, once the unsaved
   * records are appended, reads back as the whole list, so a new handler
   * starts with every record already saved.
   */
  lemma SaveThenReopen(items: seq<Frame>, saved: nat, j: Option<JournalFile>)
    requires saved <= |items| && Written(j) == Some(items[..saved])
    requires j.None? || j.value.Lines?
    ensures Load(Appended(j, items[saved..])) == Some(items)
  {
    assert items[..saved] + items[saved..] == items;
  }

  /** Saving onto a journal that holds a JSON array makes the file unreadable on the next open. */
  lemma ArrayThenLinesUnreadable(a: seq<Frame>, more: seq<Frame>, rs: seq<Frame>)
    requires rs != []
    ensures Load(Appended(Some(Array(a, more)), rs)).None?
  {
  }

  /** A save with nothing new leaves an existing file as it is. */
  lemma SaveNothing(f: JournalFile)
    ensures Appended(Some(f), []) == f
  {
    match f
    case Lines(rs) => assert rs + [] == rs;
    case Array(a, more) => assert more + [] == more;
    case Garbled =>
  }

  /** Every detection of every frame carries a position and an id. */
  predicate FramesIdentified(fs: seq<Frame>) {
    forall i, j :: 0 <= i < |fs| && 0 <= j < |fs[i].foundObjs| ==>
      fs[i].foundObjs[j].latLon.Some? && fs[i].foundObjs[j].id.Some?
  }

  /** The tree of identified frames holds only complete, time-stamped objects. */
  lemma FramesComplete(fs: seq<Frame>)
    requires FramesIdentified(fs)
    ensures TreeComplete(PlaceAll(map[], AllStamped(fs)))
  {
    var os := AllStamped(fs);
    var t: Tree := PlaceAll(map[], os);
    TreeBuckets(os);
    forall c: string, k: string | c in t && k in t[c] ensures Complete(t[c][k]) {
      assert t[c][k] == Lookup(t, c, k) == InBucket(os, c, k);
      InBucketMembers(os, c, k);
      forall n | 0 <= n < |t[c][k]|
        ensures t[c][k][n].latLon.Some? && t[c][k][n].time.Some? && t[c][k][n].id.Some?
      {
        StampedFromFrames(fs, t[c][k][n]);
      }
    }
  }

  /** When every detection carries a position and an id, get_filterd_items succeeds. */
  lemma FilteredDefined(fs: seq<Frame>, dis: real, cluster: Labelling)
    requires FramesIdentified(fs) && LabelsEveryPoint(cluster)
    ensures FilteredOf(fs, dis, cluster).Some?
  {
    FramesComplete(fs);
    TreeBuckets(AllStamped(fs));
    BucketsGroupsNonEmpty(PlaceAll(map[], AllStamped(fs)));
    PipelineDefined(PlaceAll(map[], AllStamped(fs)), dis, cluster);
  }
}
