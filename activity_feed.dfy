/** The activity list of src/components/LiveActivityFeed.tsx: filled once
    at mount from the newest ten logs, then extended at the front by the
    newest log whenever it is not yet listed, and its "new" highlight
    cleared later. `render` stands for the time-of-day rendering of a
    timestamp; the icon is a function of the level and is not kept. */
module ActivityFeed {
  import opened Basics
  import opened Types

  const FeedCap := 10

  datatype ActivityItem = ActivityItem(id: string, message: string, timestamp: string, level: Level, isNew: bool)

  function ItemOf(log: ServiceLog, render: string -> string, isNew: bool): (a: ActivityItem)
    ensures a.id == log.id && a.message == log.message && a.level == log.level && a.isNew == isNew
  {
    ActivityItem(log.id, log.message, render(log.timestamp), log.level, isNew)
  }

  /** The mount effect: nothing when there are no logs, otherwise the first
      ten logs, none highlighted. */
  function InitialFeed(logs: seq<ServiceLog>, current: seq<ActivityItem>, render: string -> string): (r: seq<ActivityItem>)
    ensures logs == [] ==> r == current
    ensures logs != [] ==> |r| == MinI(|logs|, FeedCap)
    ensures logs != [] ==> forall k :: 0 <= k < |r| ==> r[k] == ItemOf(logs[k], render, false)
  {
    if |logs| == 0 then current
    else
      var latest := Take(logs, FeedCap);
      seq(|latest|, k requires 0 <= k < |latest| => ItemOf(latest[k], render, false))
  }

  predicate Listed(activities: seq<ActivityItem>, id: string)
  {
    exists a :: a in activities && a.id == id
  }

  /** The effect on every new `logs`: only the head log is looked at; it is
      put in front, highlighted, before at most nine earlier items, unless
      an item with its id is already listed. Empty logs or an empty feed
      change nothing. */
  function OnLogs(logs: seq<ServiceLog>, activities: seq<ActivityItem>, render: string -> string): (r: seq<ActivityItem>)
    ensures logs == [] || activities == [] || Listed(activities, logs[0].id) ==> r == activities
    ensures logs != [] && activities != [] && !Listed(activities, logs[0].id) ==>
      && |r| == MinI(|activities| + 1, FeedCap)
      && r[0] == ItemOf(logs[0], render, true)
      && r[1..] == Take(activities, FeedCap - 1)
  {
    if |logs| == 0 || |activities| == 0 then activities
    else if Listed(activities, logs[0].id) then activities
    else [ItemOf(logs[0], render, true)] + Take(activities, FeedCap - 1)
  }

  /** The delayed callback: the item with that id loses its highlight, and
      every other item is unchanged. */
  function ClearNew(current: seq<ActivityItem>, id: string): (r: seq<ActivityItem>)
    ensures |r| == |current|
    ensures forall k :: 0 <= k < |r| ==>
      r[k] == (if current[k].id == id then current[k].(isNew := false) else current[k])
  {
    seq(|current|, k requires 0 <= k < |current| => if current[k].id == id then current[k].(isNew := false) else current[k])
  }

  predicate DistinctIds(activities: seq<ActivityItem>)
  {
    forall i, j :: 0 <= i < j < |activities| ==> activities[i].id != activities[j].id
  }

  /** The feed never holds more than ten items, and never lists an id twice
      once it starts from distinct ids. */
  lemma OnLogsKeepsFeed(logs: seq<ServiceLog>, activities: seq<ActivityItem>, render: string -> string)
    requires |activities| <= FeedCap && DistinctIds(activities)
    ensures |OnLogs(logs, activities, render)| <= FeedCap
    ensures DistinctIds(OnLogs(logs, activities, render))
  {
    var r := OnLogs(logs, activities, render);
    if logs != [] && activities != [] && !Listed(activities, logs[0].id) {
      var t := Take(activities, FeedCap - 1);
      forall k | 0 <= k < |t|
        ensures t[k].id != logs[0].id
      {
        assert t[k] == activities[k];
        assert activities[k] in activities;
      }
      forall i, j | 0 <= i < j < |r|
        ensures r[i].id != r[j].id
      {
        if i > 0 {
          assert r[i] == activities[i - 1] && r[j] == activities[j - 1];
        } else {
          assert r[j] == t[j - 1];
        }
      }
    }
  }

  /** The same logs a second time add nothing: the head is listed by then. */
  lemma OnLogsIdempotent(logs: seq<ServiceLog>, activities: seq<ActivityItem>, render: string -> string)
    ensures OnLogs(logs, OnLogs(logs, activities, render), render) == OnLogs(logs, activities, render)
  {
    var r := OnLogs(logs, activities, render);
    if logs != [] && activities != [] && !Listed(activities, logs[0].id) {
      assert r[0] in r;
    }
  }

  /** Clearing the highlight changes no id, so the feed stays as it was in
      length and in which ids it lists, and that id is no longer new. */
  lemma ClearNewKeepsIds(current: seq<ActivityItem>, id: string)
    ensures forall k :: 0 <= k < |current| ==> ClearNew(current, id)[k].id == current[k].id
    ensures forall a :: a in ClearNew(current, id) && a.id == id ==> !a.isNew
    ensures DistinctIds(current) ==> DistinctIds(ClearNew(current, id))
  {
  }

  /** A feed that was empty at mount stays empty whatever logs arrive later,
      since additions require a non-empty feed. */
  lemma {:induction false} EmptyFeedStaysEmpty(snapshots: seq<seq<ServiceLog>>, render: string -> string)
    ensures Replay([], snapshots, render) == []
  {
    if snapshots != [] {
      EmptyFeedStaysEmpty(snapshots[..|snapshots| - 1], render);
    }
  }

  /** Over any run of snapshots the feed keeps at most ten items and never
      lists an id twice, and every id it lists is one it started with or
      the head log id of some snapshot. */
  lemma {:induction false} ReplayKeepsFeed(activities: seq<ActivityItem>, snapshots: seq<seq<ServiceLog>>, render: string -> string)
    requires |activities| <= FeedCap && DistinctIds(activities)
    ensures |Replay(activities, snapshots, render)| <= FeedCap
    ensures DistinctIds(Replay(activities, snapshots, render))
    ensures forall a :: a in Replay(activities, snapshots, render) ==>
      Listed(activities, a.id) || exists i :: 0 <= i < |snapshots| && snapshots[i] != [] && snapshots[i][0].id == a.id
  {
    if snapshots != [] {
      var before := snapshots[..|snapshots| - 1];
      var last := snapshots[|snapshots| - 1];
      var prev := Replay(activities, before, render);
      ReplayKeepsFeed(activities, before, render);
      OnLogsKeepsFeed(last, prev, render);
      var r := OnLogs(last, prev, render);
      forall a | a in r
        ensures Listed(activities, a.id) || exists i :: 0 <= i < |snapshots| && snapshots[i] != [] && snapshots[i][0].id == a.id
      {
        if a in prev {
          if !Listed(activities, a.id) {
            var i :| 0 <= i < |before| && before[i] != [] && before[i][0].id == a.id;
            assert snapshots[i] == before[i];
          }
        } else {
          assert a == r[0] && last != [];
          assert snapshots[|snapshots| - 1] == last;
        }
      }
    }
  }

  /** The feed after the logs effect has run once per snapshot, in order. */
  function Replay(activities: seq<ActivityItem>, snapshots: seq<seq<ServiceLog>>, render: string -> string): seq<ActivityItem>
  {
    if snapshots == [] then activities
    else OnLogs(snapshots[|snapshots| - 1], Replay(activities, snapshots[..|snapshots| - 1], render), render)
  }
}
