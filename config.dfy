/** The constant tables of the configuration object: Clubhouse column names to
    workflow-state ids, column names to Userfeed statuses, and the Userfeed
    statuses whose stories are pushed to Clubhouse. */
module Config {

  /** `clubhouse.columnToIds`, as the ordered entries of the object literal. */
  const ColumnToIds: seq<(string, int)> := [
    ("grooming", 500000008),
    ("ready_for_development", 500000007),
    ("paused", 500000247),
    ("in_development", 500000006),
    ("ready_for_review", 500000010),
    ("ready_for_deploy", 500000009),
    ("deployed", 500000011)
  ]

  /** `clubhouse.statusMapping`: Clubhouse column name to Userfeed status. */
  const StatusMapping: map<string, string> := map[
    "grooming" := "planned",
    "ready_for_development" := "planned",
    "paused" := "planned",
    "in_development" := "in_progress",
    "ready_for_review" := "in_progress",
    "ready_for_deploy" := "in_progress",
    "deployed" := "complete"
  ]

  /** `userfeed.statusesToPush`. */
  const StatusesToPush: seq<string> := ["planned", "in_progress"]

  /** The Userfeed statuses a Clubhouse column can map to. */
  const UserfeedStatuses: set<string> := {"planned", "in_progress", "complete"}

  /** The column names of `columnToIds`. */
  function ColumnNames(): (names: set<string>)
    ensures forall i :: 0 <= i < |ColumnToIds| ==> ColumnToIds[i].0 in names
    ensures forall c :: c in names ==> exists i :: 0 <= i < |ColumnToIds| && ColumnToIds[i].0 == c
  {
    set i | 0 <= i < |ColumnToIds| :: ColumnToIds[i].0
  }

  /** The seven columns carry pairwise distinct ids and pairwise distinct names. */
  lemma ColumnIdsDistinct()
    ensures |ColumnToIds| == 7
    ensures forall i, j :: 0 <= i < j < |ColumnToIds| ==>
      ColumnToIds[i].1 != ColumnToIds[j].1 && ColumnToIds[i].0 != ColumnToIds[j].0
  {
  }

  /** `statusMapping` has an entry for exactly the columns of `columnToIds`. */
  lemma StatusMappingTotal()
    ensures StatusMapping.Keys == ColumnNames()
  {
    var names := ColumnNames();
    assert ColumnToIds[0].0 in names && ColumnToIds[1].0 in names && ColumnToIds[2].0 in names;
    assert ColumnToIds[3].0 in names && ColumnToIds[4].0 in names && ColumnToIds[5].0 in names;
    assert ColumnToIds[6].0 in names;
  }

  /** Every column maps to one of the three Userfeed statuses; `deployed` is the
      only column mapped to `complete`, and the first three columns map to
      `planned`. */
  lemma StatusMappingValues()
    ensures forall c :: c in StatusMapping ==> StatusMapping[c] in UserfeedStatuses
    ensures forall c :: c in StatusMapping ==> (StatusMapping[c] == "complete" <==> c == "deployed")
    ensures StatusMapping["grooming"] == StatusMapping["ready_for_development"]
      == StatusMapping["paused"] == "planned"
  {
  }

  /** The pushable statuses are exactly `planned` and `in_progress`; a
      `complete` story is never selected for a push. */
  lemma PushableStatuses()
    ensures forall s :: s in StatusesToPush <==> s == "planned" || s == "in_progress"
    ensures "complete" !in StatusesToPush
  {
  }
}
