/** The public, read-only theme-week routes (blueprints/theme_weeks.py):
    the week list with its video counts, one week with its videos, and
    the list of all materials. Listings are maps keyed by id: the source
    returns rows in the database's unspecified order. */
module ThemeWeeks {
  import opened Models

  /** The `ThemeWeek.videos` relation (the backref of `Video.theme_week_id`). */
  function VideosOf(videos: map<Id, Video>, weekId: Id): (r: map<Id, Video>)
    ensures forall k :: k in r <==> k in videos && videos[k].themeWeekId == weekId
    ensures forall k :: k in r ==> r[k] == videos[k]
  {
    map k | k in videos && videos[k].themeWeekId == weekId :: videos[k]
  }

  /** `len(week.videos)`. */
  function VideosCount(videos: map<Id, Video>, weekId: Id): (n: nat)
    ensures n <= |videos|
    ensures n == 0 <==> forall k | k in videos :: videos[k].themeWeekId != weekId
  {
    var ids := VideosOf(videos, weekId).Keys;
    SubsetSize(ids, videos.Keys);
    assert (forall k | k in videos :: videos[k].themeWeekId != weekId) ==> ids == {};
    |ids|
  }

  datatype WeekSummary = WeekSummary(week: ThemeWeek, videosCount: nat)

  datatype WeekDetail = WeekDetail(week: ThemeWeek, videos: map<Id, Video>)

  /** `get_theme_weeks`: one entry per week, with the number of videos
      whose `theme_week_id` is that week. */
  function WeekList(weeks: map<Id, ThemeWeek>, videos: map<Id, Video>): (r: map<Id, WeekSummary>)
    ensures r.Keys == weeks.Keys
    ensures forall k :: k in r ==>
      r[k].week == weeks[k] && r[k].videosCount == |set v | v in videos && videos[v].themeWeekId == k|
  {
    map k | k in weeks :: WeekSummary(weeks[k], VideosCount(videos, k))
  }

  /** `get_theme_week`: 404 for an unknown id, else the week and exactly
      the videos whose `theme_week_id` is that id. */
  function GetWeek(weeks: map<Id, ThemeWeek>, videos: map<Id, Video>, id: Id): (r: Reply<WeekDetail>)
    ensures r.Done? <==> id in weeks
    ensures r.Failed? ==> r.status == 404
    ensures r.Done? ==>
      && r.status == 200
      && r.value.week == weeks[id]
      && (forall k :: k in r.value.videos <==> k in videos && videos[k].themeWeekId == id)
      && (forall k :: k in r.value.videos ==> r.value.videos[k] == videos[k])
  {
    if id in weeks then Done(200, WeekDetail(weeks[id], VideosOf(videos, id))) else Failed(404)
  }

  /** `get_all_materials`: every material row, of every week, unfiltered. */
  function AllMaterials(materials: map<Id, Material>): (r: map<Id, Material>)
    ensures r.Keys == materials.Keys
    ensures forall k :: k in r ==> r[k] == materials[k]
  {
    materials
  }

  /** The count in the week list is the length of the week detail's video list. */
  lemma {:induction false} DetailMatchesCount(weeks: map<Id, ThemeWeek>, videos: map<Id, Video>, id: Id)
    requires id in weeks
    ensures GetWeek(weeks, videos, id).Done?
    ensures |GetWeek(weeks, videos, id).value.videos| == WeekList(weeks, videos)[id].videosCount
  {
  }

  /** The ids of the week `w`'s videos after inserting `v` under `id`. */
  lemma {:induction false} KeysAfterInsert(videos: map<Id, Video>, id: Id, v: Video, w: Id)
    requires id !in videos
    ensures VideosOf(videos[id := v], w).Keys ==
      if w == v.themeWeekId then VideosOf(videos, w).Keys + {id} else VideosOf(videos, w).Keys
  {
    var before := VideosOf(videos, w).Keys;
    var after := VideosOf(videos[id := v], w).Keys;
    forall k ensures k in after <==> k in before || (k == id && w == v.themeWeekId) {
      if k != id { assert (k in after) == (k in videos && videos[k].themeWeekId == w); }
    }
  }

  /** Adding a video to week `w` raises `w`'s count by one and leaves every
      other week's count alone (admin `create_video`). */
  lemma {:induction false} CountAfterInsert(videos: map<Id, Video>, id: Id, v: Video, w: Id)
    requires id !in videos
    ensures VideosCount(videos[id := v], w) ==
      if w == v.themeWeekId then VideosCount(videos, w) + 1 else VideosCount(videos, w)
  {
    KeysAfterInsert(videos, id, v, w);
    assert id !in VideosOf(videos, w).Keys;
  }

  /** The ids of the videos that belong to one of the weeks `ws`. */
  ghost function VideosIn(videos: map<Id, Video>, ws: set<Id>): set<Id> {
    set k | k in videos && videos[k].themeWeekId in ws
  }

  /** The sum of the counts of the weeks `ws`. */
  ghost function TotalCount(videos: map<Id, Video>, ws: set<Id>): nat
    decreases ws
  {
    if ws == {} then 0
    else
      var w :| w in ws;
      VideosCount(videos, w) + TotalCount(videos, ws - {w})
  }

  /** The videos of the weeks `ws` are those of one week `w` in `ws` and
      those of the other weeks, and no video is in both. */
  lemma {:induction false} VideosInSplit(videos: map<Id, Video>, ws: set<Id>, w: Id)
    requires w in ws
    ensures |VideosIn(videos, ws)| == VideosCount(videos, w) + |VideosIn(videos, ws - {w})|
  {
    var mine := VideosOf(videos, w).Keys;
    var rest := VideosIn(videos, ws - {w});
    assert VideosIn(videos, ws) == mine + rest by {
      forall k | k in VideosIn(videos, ws) ensures k in mine + rest {
        if videos[k].themeWeekId == w { assert k in mine; } else { assert k in rest; }
      }
    }
    assert mine * rest == {};
    assert |VideosOf(videos, w)| == |mine|;
  }

  /** Counting the videos of a set of weeks one week at a time counts
      each of their videos exactly once. */
  lemma {:induction false} TotalCountCountsEachVideoOnce(videos: map<Id, Video>, ws: set<Id>)
    ensures TotalCount(videos, ws) == |VideosIn(videos, ws)|
    decreases ws
  {
    if ws == {} {
      assert VideosIn(videos, ws) == {};
    } else {
      var w :| w in ws && TotalCount(videos, ws) == VideosCount(videos, w) + TotalCount(videos, ws - {w});
      TotalCountCountsEachVideoOnce(videos, ws - {w});
      VideosInSplit(videos, ws, w);
    }
  }

  /** When every video belongs to an existing week, the counts of the week
      list add up to the number of videos. */
  lemma {:induction false} CountsCoverAllVideos(weeks: map<Id, ThemeWeek>, videos: map<Id, Video>)
    requires forall k :: k in videos ==> videos[k].themeWeekId in weeks
    ensures TotalCount(videos, weeks.Keys) == |videos|
  {
    TotalCountCountsEachVideoOnce(videos, weeks.Keys);
    assert VideosIn(videos, weeks.Keys) == videos.Keys;
  }
}
