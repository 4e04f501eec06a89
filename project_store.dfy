/**
 * The multi-project metadata store of `project_manager.py`: the project
 * records, their JSON form, and the manager that keeps them in memory and
 * writes each changed record through to its file in the configuration
 * directory. The directory is the ghost map `disk` from file stem to the
 * parsed JSON document stored under that stem.
 */
module ProjectStore {
  import opened Wrappers
  import opened Strings
  import Json

  datatype ProjectStatus = Active | Paused | Archived

  /** The lower-case tag a status is written as. */
  function StatusTag(s: ProjectStatus): string {
    match s
    case Active => "active"
    case Paused => "paused"
    case Archived => "archived"
  }

  /** `ProjectStatus(tag)`: the status with that tag, if any. */
  function StatusFromTag(tag: string): (r: Option<ProjectStatus>)
    ensures r.Some? <==> tag in {"active", "paused", "archived"}
    ensures r.Some? ==> StatusTag(r.value) == tag
  {
    if tag == "active" then Some(Active)
    else if tag == "paused" then Some(Paused)
    else if tag == "archived" then Some(Archived)
    else None
  }

  lemma StatusTagRoundTrip(s: ProjectStatus)
    ensures StatusFromTag(StatusTag(s)) == Some(s)
  {
  }

  datatype Decision = Decision(id: string, decision: string, reasoning: string, timestamp: string, tags: seq<string>)

  datatype Objective = Objective(
    id: string,
    title: string,
    description: string,
    createdAt: string,
    completedAt: Option<string>,
    status: string,
    priority: string)

  datatype ProjectConfig = ProjectConfig(
    projectId: string,
    name: string,
    rootPath: string,
    watchDirs: seq<string>,
    status: ProjectStatus,
    createdAt: string,
    lastActive: string,
    description: string,
    fileExtensions: seq<string>,
    decisions: seq<Decision>,
    objectives: seq<Objective>,
    metadata: map<string, Json.Value>)

  const DefaultFileExtensions: seq<string> := [".py", ".js", ".jsx", ".ts", ".tsx", ".md", ".json", ".yaml"]
  const PendingStatus := "pending"
  const CompletedStatus := "completed"
  const DefaultPriority := "medium"

  // ---------------------------------------------------------------------
  // The JSON form of the records (`to_dict` / `from_dict`)
  // ---------------------------------------------------------------------

  const DecisionKeys: set<string> := {"id", "decision", "reasoning", "timestamp", "tags"}
  const ObjectiveKeys: set<string> := {"id", "title", "description", "created_at", "completed_at", "status", "priority"}
  const ProjectKeys: set<string> := {
    "project_id", "name", "root_path", "watch_dirs", "status", "created_at", "last_active",
    "description", "file_extensions", "decisions", "objectives", "metadata"}

  /** A required string field. */
  function RequiredStr(m: map<string, Json.Value>, key: string): (r: Option<string>)
    ensures r.Some? <==> key in m && m[key].Str?
    ensures r.Some? ==> m[key] == Json.Str(r.value)
  {
    if key in m && m[key].Str? then Some(m[key].s) else None
  }

  /** A string field with a default used when the key is absent. */
  function StrOr(m: map<string, Json.Value>, key: string, default: string): (r: Option<string>)
    ensures key !in m ==> r == Some(default)
    ensures key in m ==> (r.Some? <==> m[key].Str?)
    ensures key in m && r.Some? ==> m[key] == Json.Str(r.value)
  {
    if key !in m then Some(default) else RequiredStr(m, key)
  }

  /** A list of strings that falls back to `default` when absent or `null`. */
  function StringsOr(m: map<string, Json.Value>, key: string, default: seq<string>): (r: Option<seq<string>>)
    ensures key !in m || m[key].Null? ==> r == Some(default)
  {
    if key !in m || m[key].Null? then Some(default)
    else if m[key].Array? then Json.AsStrings(m[key].items)
    else None
  }

  /** A required list of strings. */
  function RequiredStrings(m: map<string, Json.Value>, key: string): (r: Option<seq<string>>)
    ensures r.Some? ==> key in m && m[key].Array?
  {
    if key in m && m[key].Array? then Json.AsStrings(m[key].items) else None
  }

  function DecisionToDict(d: Decision): Json.Value {
    Json.Object(map[
      "id" := Json.Str(d.id),
      "decision" := Json.Str(d.decision),
      "reasoning" := Json.Str(d.reasoning),
      "timestamp" := Json.Str(d.timestamp),
      "tags" := Json.StrArray(d.tags)])
  }

  /**
   * `Decision(**d)`: every key must be a field of the record, the four strings
   * are required and absent or `null` tags become the empty list.
   */
  function DecisionFromDict(v: Json.Value): (r: Option<Decision>)
    ensures r.Some? ==> v.Object? && v.fields.Keys <= DecisionKeys
    ensures r.Some? ==> "id" in v.fields && v.fields["id"] == Json.Str(r.value.id)
  {
    if !v.Object? || !(v.fields.Keys <= DecisionKeys) then None
    else
      var m := v.fields;
      var id :- RequiredStr(m, "id");
      var decision :- RequiredStr(m, "decision");
      var reasoning :- RequiredStr(m, "reasoning");
      var timestamp :- RequiredStr(m, "timestamp");
      var tags :- StringsOr(m, "tags", []);
      Some(Decision(id, decision, reasoning, timestamp, tags))
  }

  lemma DecisionRoundTrip(d: Decision)
    ensures DecisionFromDict(DecisionToDict(d)) == Some(d)
  {
    var m := DecisionToDict(d).fields;
    assert m.Keys == DecisionKeys;
    Json.StrArrayRoundTrip(d.tags);
  }

  function CompletedAtToJson(c: Option<string>): Json.Value {
    match c
    case None => Json.Null
    case Some(t) => Json.Str(t)
  }

  function ObjectiveToDict(o: Objective): Json.Value {
    Json.Object(map[
      "id" := Json.Str(o.id),
      "title" := Json.Str(o.title),
      "description" := Json.Str(o.description),
      "created_at" := Json.Str(o.createdAt),
      "completed_at" := CompletedAtToJson(o.completedAt),
      "status" := Json.Str(o.status),
      "priority" := Json.Str(o.priority)])
  }

  /**
   * `Objective(**o)`: four strings required; `completed_at` absent or `null`
   * is no completion time; `status` and `priority` default to "pending" and "medium".
   */
  function ObjectiveFromDict(v: Json.Value): (r: Option<Objective>)
    ensures r.Some? ==> v.Object? && v.fields.Keys <= ObjectiveKeys
    ensures r.Some? && "status" !in v.fields ==> r.value.status == PendingStatus
    ensures r.Some? && "priority" !in v.fields ==> r.value.priority == DefaultPriority
  {
    if !v.Object? || !(v.fields.Keys <= ObjectiveKeys) then None
    else
      var m := v.fields;
      var id :- RequiredStr(m, "id");
      var title :- RequiredStr(m, "title");
      var description :- RequiredStr(m, "description");
      var createdAt :- RequiredStr(m, "created_at");
      var completedAt :-
        if "completed_at" !in m || m["completed_at"].Null? then Some(None)
        else if m["completed_at"].Str? then Some(Some(m["completed_at"].s))
        else None;
      var status :- StrOr(m, "status", PendingStatus);
      var priority :- StrOr(m, "priority", DefaultPriority);
      Some(Objective(id, title, description, createdAt, completedAt, status, priority))
  }

  lemma ObjectiveRoundTrip(o: Objective)
    ensures ObjectiveFromDict(ObjectiveToDict(o)) == Some(o)
  {
  }

  function DecisionsToJson(ds: seq<Decision>): (r: seq<Json.Value>)
    ensures |r| == |ds|
  {
    if |ds| == 0 then [] else [DecisionToDict(ds[0])] + DecisionsToJson(ds[1..])
  }

  /** `[Decision(**d) for d in items]`: fails if any item fails. */
  function DecisionsFromJson(items: seq<Json.Value>): (r: Option<seq<Decision>>)
    ensures r.Some? ==> |r.value| == |items|
  {
    if |items| == 0 then Some([])
    else
      var d :- DecisionFromDict(items[0]);
      var rest :- DecisionsFromJson(items[1..]);
      Some([d] + rest)
  }

  lemma {:induction false} DecisionsRoundTrip(ds: seq<Decision>)
    ensures DecisionsFromJson(DecisionsToJson(ds)) == Some(ds)
  {
    if |ds| > 0 {
      DecisionRoundTrip(ds[0]);
      DecisionsRoundTrip(ds[1..]);
      assert DecisionsToJson(ds)[1..] == DecisionsToJson(ds[1..]);
      assert ds == [ds[0]] + ds[1..];
    }
  }

  function ObjectivesToJson(os: seq<Objective>): (r: seq<Json.Value>)
    ensures |r| == |os|
  {
    if |os| == 0 then [] else [ObjectiveToDict(os[0])] + ObjectivesToJson(os[1..])
  }

  function ObjectivesFromJson(items: seq<Json.Value>): (r: Option<seq<Objective>>)
    ensures r.Some? ==> |r.value| == |items|
  {
    if |items| == 0 then Some([])
    else
      var o :- ObjectiveFromDict(items[0]);
      var rest :- ObjectivesFromJson(items[1..]);
      Some([o] + rest)
  }

  lemma {:induction false} ObjectivesRoundTrip(os: seq<Objective>)
    ensures ObjectivesFromJson(ObjectivesToJson(os)) == Some(os)
  {
    if |os| > 0 {
      ObjectiveRoundTrip(os[0]);
      ObjectivesRoundTrip(os[1..]);
      assert ObjectivesToJson(os)[1..] == ObjectivesToJson(os[1..]);
      assert os == [os[0]] + os[1..];
    }
  }

  /** `ProjectConfig.to_dict`: every field under its own name, the status as its tag. */
  function ToDict(p: ProjectConfig): Json.Value {
    Json.Object(map[
      "project_id" := Json.Str(p.projectId),
      "name" := Json.Str(p.name),
      "root_path" := Json.Str(p.rootPath),
      "watch_dirs" := Json.StrArray(p.watchDirs),
      "status" := Json.Str(StatusTag(p.status)),
      "created_at" := Json.Str(p.createdAt),
      "last_active" := Json.Str(p.lastActive),
      "description" := Json.Str(p.description),
      "file_extensions" := Json.StrArray(p.fileExtensions),
      "decisions" := Json.Array(DecisionsToJson(p.decisions)),
      "objectives" := Json.Array(ObjectivesToJson(p.objectives)),
      "metadata" := Json.Object(p.metadata)])
  }

  /** A list of records under `key`, absent meaning empty; `null` or a non-list fails. */
  function RecordsOr<T>(m: map<string, Json.Value>, key: string, decode: seq<Json.Value> -> Option<seq<T>>): Option<seq<T>> {
    if key !in m then Some([])
    else if m[key].Array? then decode(m[key].items)
    else None
  }

  /** The seven fields of a record that have no default. */
  datatype Header = Header(
    projectId: string, name: string, rootPath: string, watchDirs: seq<string>,
    status: ProjectStatus, createdAt: string, lastActive: string)

  /** The five fields of a record that have a default. */
  datatype Extras = Extras(
    description: string, fileExtensions: seq<string>, decisions: seq<Decision>,
    objectives: seq<Objective>, metadata: map<string, Json.Value>)

  function ReadHeader(m: map<string, Json.Value>): Option<Header> {
    var projectId :- RequiredStr(m, "project_id");
    var name :- RequiredStr(m, "name");
    var rootPath :- RequiredStr(m, "root_path");
    var watchDirs :- RequiredStrings(m, "watch_dirs");
    var state :- ReadState(m);
    Some(Header(projectId, name, rootPath, watchDirs, state.0, state.1, state.2))
  }

  function ReadState(m: map<string, Json.Value>): Option<(ProjectStatus, string, string)> {
    var tag :- RequiredStr(m, "status");
    var status :- StatusFromTag(tag);
    var createdAt :- RequiredStr(m, "created_at");
    var lastActive :- RequiredStr(m, "last_active");
    Some((status, createdAt, lastActive))
  }

  function ReadExtras(m: map<string, Json.Value>): Option<Extras> {
    var description :- StrOr(m, "description", "");
    var fileExtensions :- StringsOr(m, "file_extensions", DefaultFileExtensions);
    var decisions :- RecordsOr(m, "decisions", DecisionsFromJson);
    var objectives :- RecordsOr(m, "objectives", ObjectivesFromJson);
    var metadata :-
      if "metadata" !in m || m["metadata"].Null? then Some(map[])
      else if m["metadata"].Object? then Some(m["metadata"].fields)
      else None;
    Some(Extras(description, fileExtensions, decisions, objectives, metadata))
  }

  /**
   * `ProjectConfig.from_dict` followed by `__post_init__`: the seven leading
   * fields are required, `status` must be a known tag, unknown keys fail,
   * and the optional fields take their defaults when absent (or `null`, for
   * the ones `__post_init__` replaces).
   */
  function FromDict(v: Json.Value): (r: Option<ProjectConfig>)
    ensures r.Some? ==> v.Object? && v.fields.Keys <= ProjectKeys
    ensures r.Some? ==> "project_id" in v.fields && v.fields["project_id"] == Json.Str(r.value.projectId)
    ensures r.Some? ==> "status" in v.fields && v.fields["status"] == Json.Str(StatusTag(r.value.status))
    ensures r.Some? && "decisions" !in v.fields ==> r.value.decisions == []
    ensures r.Some? && ("file_extensions" !in v.fields || v.fields["file_extensions"].Null?) ==>
      r.value.fileExtensions == DefaultFileExtensions
  {
    if !v.Object? || !(v.fields.Keys <= ProjectKeys) then None
    else
      var h :- ReadHeader(v.fields);
      var e :- ReadExtras(v.fields);
      Some(ProjectConfig(h.projectId, h.name, h.rootPath, h.watchDirs, h.status, h.createdAt, h.lastActive,
        e.description, e.fileExtensions, e.decisions, e.objectives, e.metadata))
  }

  /** The fields `to_dict` writes for the seven leading fields. */
  lemma HeaderFields(p: ProjectConfig)
    ensures var m := ToDict(p).fields;
      "project_id" in m && m["project_id"] == Json.Str(p.projectId)
      && "name" in m && m["name"] == Json.Str(p.name)
      && "root_path" in m && m["root_path"] == Json.Str(p.rootPath)
      && "watch_dirs" in m && m["watch_dirs"] == Json.StrArray(p.watchDirs)
  {
  }

  lemma StateFields(p: ProjectConfig)
    ensures var m := ToDict(p).fields;
      "status" in m && m["status"] == Json.Str(StatusTag(p.status))
      && "created_at" in m && m["created_at"] == Json.Str(p.createdAt)
      && "last_active" in m && m["last_active"] == Json.Str(p.lastActive)
  {
  }

  /** The fields `to_dict` writes for the five fields with defaults. */
  lemma ExtrasFields(p: ProjectConfig)
    ensures var m := ToDict(p).fields;
      "description" in m && m["description"] == Json.Str(p.description)
      && "file_extensions" in m && m["file_extensions"] == Json.StrArray(p.fileExtensions)
      && "decisions" in m && m["decisions"] == Json.Array(DecisionsToJson(p.decisions))
      && "objectives" in m && m["objectives"] == Json.Array(ObjectivesToJson(p.objectives))
      && "metadata" in m && m["metadata"] == Json.Object(p.metadata)
  {
  }

  lemma HeaderRoundTrip(p: ProjectConfig)
    ensures ReadHeader(ToDict(p).fields) == Some(Header(p.projectId, p.name, p.rootPath, p.watchDirs, p.status, p.createdAt, p.lastActive))
  {
    var m := ToDict(p).fields;
    HeaderFields(p);
    Json.StrArrayRoundTrip(p.watchDirs);
    StateRoundTrip(p);
    assert RequiredStrings(m, "watch_dirs") == Some(p.watchDirs);
  }

  lemma StateRoundTrip(p: ProjectConfig)
    ensures ReadState(ToDict(p).fields) == Some((p.status, p.createdAt, p.lastActive))
  {
  }

  lemma ExtrasRoundTrip(p: ProjectConfig)
    ensures ReadExtras(ToDict(p).fields) == Some(Extras(p.description, p.fileExtensions, p.decisions, p.objectives, p.metadata))
  {
    var m := ToDict(p).fields;
    ExtrasFields(p);
    Json.StrArrayRoundTrip(p.fileExtensions);
    DecisionsRoundTrip(p.decisions);
    ObjectivesRoundTrip(p.objectives);
    assert StringsOr(m, "file_extensions", DefaultFileExtensions) == Some(p.fileExtensions);
  }

  /** Reading back a written record gives the record. */
  lemma ProjectRoundTrip(p: ProjectConfig)
    ensures FromDict(ToDict(p)) == Some(p)
  {
    assert ToDict(p).fields.Keys == ProjectKeys;
    HeaderRoundTrip(p);
    ExtrasRoundTrip(p);
  }

  // ---------------------------------------------------------------------
  // Views over records
  // ---------------------------------------------------------------------

  predicate SortedByTimestampDesc(ds: seq<Decision>) {
    forall i, j :: 0 <= i < j < |ds| ==> StrLe(ds[j].timestamp, ds[i].timestamp)
  }

  /** Inserts `d` after every decision whose timestamp is not below its own. */
  function InsertByTimestamp(d: Decision, s: seq<Decision>): (r: seq<Decision>)
    ensures multiset(r) == multiset(s) + multiset{d}
    ensures |r| == |s| + 1
    ensures r[0] == d || (|s| > 0 && r[0] == s[0])
  {
    if |s| == 0 then [d]
    else if StrLt(s[0].timestamp, d.timestamp) then [d] + s
    else
      assert s == [s[0]] + s[1..];
      [s[0]] + InsertByTimestamp(d, s[1..])
  }

  lemma {:induction false} InsertByTimestampSorted(d: Decision, s: seq<Decision>)
    requires SortedByTimestampDesc(s)
    ensures SortedByTimestampDesc(InsertByTimestamp(d, s))
  {
    if |s| == 0 {
    } else if StrLt(s[0].timestamp, d.timestamp) {
      var r := [d] + s;
      forall i, j | 0 <= i < j < |r|
        ensures StrLe(r[j].timestamp, r[i].timestamp)
      {
        if i == 0 {
          StrLeTransitive(r[j].timestamp, s[0].timestamp, d.timestamp);
        }
      }
    } else {
      var t := InsertByTimestamp(d, s[1..]);
      InsertByTimestampSorted(d, s[1..]);
      StrLeNotLt(s[0].timestamp, d.timestamp);
      var r := [s[0]] + t;
      assert StrLe(t[0].timestamp, s[0].timestamp);
      forall i, j | 0 <= i < j < |r|
        ensures StrLe(r[j].timestamp, r[i].timestamp)
      {
        if i == 0 && j > 1 {
          StrLeTransitive(t[j - 1].timestamp, t[0].timestamp, s[0].timestamp);
        }
      }
    }
  }

  /** `sorted(ds, key=timestamp, reverse=True)`, a stable sort. */
  function SortByTimestampDesc(ds: seq<Decision>): (r: seq<Decision>)
    ensures multiset(r) == multiset(ds)
    ensures |r| == |ds|
  {
    if |ds| == 0 then []
    else
      assert ds == ds[..|ds| - 1] + [ds[|ds| - 1]];
      InsertByTimestamp(ds[|ds| - 1], SortByTimestampDesc(ds[..|ds| - 1]))
  }

  lemma {:induction false} SortByTimestampDescSorted(ds: seq<Decision>)
    ensures SortedByTimestampDesc(SortByTimestampDesc(ds))
  {
    if |ds| > 0 {
      SortByTimestampDescSorted(ds[..|ds| - 1]);
      InsertByTimestampSorted(ds[|ds| - 1], SortByTimestampDesc(ds[..|ds| - 1]));
    }
  }

  /** The ten most recent decisions, newest first. */
  function RecentDecisions(ds: seq<Decision>): (r: seq<Decision>)
    ensures |r| == if |ds| < 10 then |ds| else 10
  {
    Prefix(SortByTimestampDesc(ds), 10)
  }

  /**
   * The recent decisions are at most ten, newest first, all taken from the
   * project, and no decision left out is newer than one kept.
   */
  lemma RecentDecisionsSpec(ds: seq<Decision>)
    ensures |RecentDecisions(ds)| == if |ds| < 10 then |ds| else 10
    ensures SortedByTimestampDesc(RecentDecisions(ds))
    ensures multiset(RecentDecisions(ds)) <= multiset(ds)
    ensures forall d, e :: d in multiset(ds) - multiset(RecentDecisions(ds)) && e in RecentDecisions(ds) ==>
      StrLe(d.timestamp, e.timestamp)
  {
    var s := SortByTimestampDesc(ds);
    SortByTimestampDescSorted(ds);
    var n := |RecentDecisions(ds)|;
    assert RecentDecisions(ds) == s[..n];
    SplitMultiset(s, n);
    SortedSplit(s, n);
  }

  /** A sequence's multiset is that of a prefix plus that of the rest. */
  lemma SplitMultiset(s: seq<Decision>, n: nat)
    requires n <= |s|
    ensures multiset(s[..n]) <= multiset(s)
    ensures multiset(s) - multiset(s[..n]) == multiset(s[n..])
  {
    assert s == s[..n] + s[n..];
  }

  /** In a newest-first sequence nothing after position `n` is newer than anything before it. */
  lemma SortedSplit(s: seq<Decision>, n: nat)
    requires n <= |s| && SortedByTimestampDesc(s)
    ensures SortedByTimestampDesc(s[..n])
    ensures forall d, e :: d in s[n..] && e in s[..n] ==> StrLe(d.timestamp, e.timestamp)
  {
  }

  /** The objectives whose status is not "completed", in order. */
  function PendingObjectives(os: seq<Objective>): (r: seq<Objective>)
    ensures forall o :: o in r <==> o in os && o.status != CompletedStatus
    ensures |r| + |CompletedObjectives(os)| == |os|
  {
    if |os| == 0 then []
    else if os[0].status != CompletedStatus then [os[0]] + PendingObjectives(os[1..])
    else PendingObjectives(os[1..])
  }

  /** The objectives whose status is "completed", in order. */
  function CompletedObjectives(os: seq<Objective>): (r: seq<Objective>)
    ensures forall o :: o in r <==> o in os && o.status == CompletedStatus
  {
    if |os| == 0 then []
    else if os[0].status == CompletedStatus then [os[0]] + CompletedObjectives(os[1..])
    else CompletedObjectives(os[1..])
  }

  /** The records of `ids` having status `st`, in the order of `ids`. */
  function WithStatus(ids: seq<string>, ps: map<string, ProjectConfig>, st: ProjectStatus): (r: seq<ProjectConfig>)
    requires forall i :: 0 <= i < |ids| ==> ids[i] in ps
    ensures forall p :: p in r <==> exists i :: 0 <= i < |ids| && ps[ids[i]] == p && p.status == st
  {
    if |ids| == 0 then []
    else
      var rest := WithStatus(ids[1..], ps, st);
      assert forall i :: 1 <= i < |ids| ==> ids[i] == ids[1..][i - 1];
      if ps[ids[0]].status == st then [ps[ids[0]]] + rest else rest
  }

  /** Every record has exactly one of the three statuses. */
  lemma {:induction false} StatusCountsAddUp(ids: seq<string>, ps: map<string, ProjectConfig>)
    requires forall i :: 0 <= i < |ids| ==> ids[i] in ps
    ensures |WithStatus(ids, ps, Active)| + |WithStatus(ids, ps, Paused)| + |WithStatus(ids, ps, Archived)| == |ids|
  {
    if |ids| > 0 {
      StatusCountsAddUp(ids[1..], ps);
    }
  }

  /** The union of the watch directories of `ps`. */
  function WatchDirsOf(ps: seq<ProjectConfig>): (r: set<string>)
    ensures forall d :: d in r <==> exists i :: 0 <= i < |ps| && d in ps[i].watchDirs
  {
    if |ps| == 0 then {}
    else
      var rest := WatchDirsOf(ps[1..]);
      assert forall i :: 1 <= i < |ps| ==> ps[i] == ps[1..][i - 1];
      (set d | d in ps[0].watchDirs) + rest
  }

  predicate Distinct<T(==)>(s: seq<T>) {
    forall i, j :: 0 <= i < j < |s| ==> s[i] != s[j]
  }

  /** A duplicate-free list has as many elements as the set of its elements. */
  lemma {:induction false} DistinctCount<T>(s: seq<T>)
    requires Distinct(s)
    ensures |set x | x in s| == |s|
  {
    if |s| > 0 {
      var init := s[..|s| - 1];
      var last := s[|s| - 1];
      assert Distinct(init);
      DistinctCount(init);
      assert (set x | x in s) == (set x | x in init) + {last} by {
        assert s == init + [last];
      }
      assert last !in (set x | x in init);
    }
  }

  /** A duplicate-free list of the keys of a map has as many entries as the map. */
  lemma DistinctKeysCount<V>(ids: seq<string>, m: map<string, V>)
    requires Distinct(ids)
    requires forall id :: id in m <==> id in ids
    ensures |m| == |ids|
  {
    DistinctCount(ids);
    assert m.Keys == set x | x in ids;
  }

  /** One entry of `export_context()["recent_decisions"]`. */
  datatype DecisionView = DecisionView(decision: string, reasoning: string, timestamp: string, tags: seq<string>)

  /** One entry of `export_context()["pending_objectives"]`. */
  datatype ObjectiveView = ObjectiveView(title: string, description: string, priority: string, createdAt: string)

  datatype ProjectView = ProjectView(id: string, name: string, description: string, rootPath: string, status: string, lastActive: string)

  datatype Statistics = Statistics(totalDecisions: nat, totalObjectives: nat, completedObjectives: nat, watchDirectories: nat)

  /** The exported context; `NoContext` is the empty dictionary. */
  datatype ExportedContext =
    | NoContext
    | Context(project: ProjectView, recentDecisions: seq<DecisionView>, pendingObjectives: seq<ObjectiveView>, statistics: Statistics)

  function ViewDecision(d: Decision): DecisionView {
    DecisionView(d.decision, d.reasoning, d.timestamp, d.tags)
  }

  function ViewObjective(o: Objective): ObjectiveView {
    ObjectiveView(o.title, o.description, o.priority, o.createdAt)
  }

  /** The context exported for a record. */
  function ExportRecord(p: ProjectConfig): (r: ExportedContext)
    ensures r.Context?
    ensures |r.recentDecisions| == if |p.decisions| < 10 then |p.decisions| else 10
    ensures forall i :: 0 <= i < |r.recentDecisions| ==> r.recentDecisions[i] == ViewDecision(RecentDecisions(p.decisions)[i])
    ensures |r.pendingObjectives| == |PendingObjectives(p.objectives)|
    ensures forall i :: 0 <= i < |r.pendingObjectives| ==> r.pendingObjectives[i] == ViewObjective(PendingObjectives(p.objectives)[i])
    ensures r.statistics.completedObjectives + |r.pendingObjectives| == r.statistics.totalObjectives == |p.objectives|
    ensures r.statistics.totalDecisions == |p.decisions| && r.statistics.watchDirectories == |p.watchDirs|
    ensures r.project.id == p.projectId && r.project.status == StatusTag(p.status)
  {
    var recent := RecentDecisions(p.decisions);
    var pending := PendingObjectives(p.objectives);
    Context(
      ProjectView(p.projectId, p.name, p.description, p.rootPath, StatusTag(p.status), p.lastActive),
      seq(|recent|, i requires 0 <= i < |recent| => ViewDecision(recent[i])),
      seq(|pending|, i requires 0 <= i < |pending| => ViewObjective(pending[i])),
      Statistics(|p.decisions|, |p.objectives|, |CompletedObjectives(p.objectives)|, |p.watchDirs|))
  }

  /** One entry of `get_project_summary()["projects"]`. */
  datatype ProjectRow = ProjectRow(id: string, name: string, status: string, lastActive: string, objectivesPending: nat, totalDecisions: nat)

  datatype Summary = Summary(
    totalProjects: nat,
    activeProjects: nat,
    pausedProjects: nat,
    archivedProjects: nat,
    focusedProject: Option<string>,
    projects: seq<ProjectRow>)

  function Row(p: ProjectConfig): ProjectRow {
    ProjectRow(p.projectId, p.name, StatusTag(p.status), p.lastActive, |PendingObjectives(p.objectives)|, |p.decisions|)
  }

  /** One summary row per id of `ids`, in that order. */
  function Rows(ids: seq<string>, ps: map<string, ProjectConfig>): (r: seq<ProjectRow>)
    requires forall i :: 0 <= i < |ids| ==> ids[i] in ps
    ensures |r| == |ids| && forall i :: 0 <= i < |ids| ==> r[i] == Row(ps[ids[i]])
  {
    seq(|ids|, i requires 0 <= i < |ids| => Row(ps[ids[i]]))
  }

  /** The index of the first objective with id `oid`. */
  function FirstObjectiveIndex(os: seq<Objective>, oid: string): (r: Option<nat>)
    ensures r.Some? ==> r.value < |os| && os[r.value].id == oid
    ensures r.Some? ==> forall k :: 0 <= k < r.value ==> os[k].id != oid
    ensures r.None? ==> forall k :: 0 <= k < |os| ==> os[k].id != oid
  {
    if |os| == 0 then None
    else if os[0].id == oid then Some(0)
    else match FirstObjectiveIndex(os[1..], oid)
      case None => None
      case Some(k) => Some(k + 1)
  }

  /** The objective marked completed at time `now`. */
  function Complete(o: Objective, now: string): Objective {
    o.(status := CompletedStatus, completedAt := Some(now))
  }

  /** Completing an objective keeps it findable: a second completion of the same id succeeds again. */
  lemma CompleteKeepsMatch(os: seq<Objective>, oid: string, now: string)
    requires FirstObjectiveIndex(os, oid).Some?
    ensures var k := FirstObjectiveIndex(os, oid).value;
      FirstObjectiveIndex(os[k := Complete(os[k], now)], oid) == Some(k)
  {
    var k := FirstObjectiveIndex(os, oid).value;
    var os' := os[k := Complete(os[k], now)];
    var r := FirstObjectiveIndex(os', oid);
    assert r.Some? by {
      assert os'[k].id == oid;
    }
    assert r.value == k by {
      assert os'[k].id == oid;
      assert forall j :: 0 <= j < k ==> os'[j] == os[j];
    }
  }

  // ---------------------------------------------------------------------
  // Loading the configuration directory
  // ---------------------------------------------------------------------

  /** One `*.json` file of the configuration directory; `content` is `None` when it is not valid JSON. */
  datatype ConfigFile = ConfigFile(stem: string, content: Option<Json.Value>)

  function Decoded(f: ConfigFile): Option<ProjectConfig> {
    if f.content.None? then None else FromDict(f.content.value)
  }

  /** `self.projects` after loading `files` in order, skipping files that fail. */
  function LoadedProjects(files: seq<ConfigFile>): (r: map<string, ProjectConfig>)
    ensures forall id :: id in r ==> r[id].projectId == id
  {
    if |files| == 0 then map[]
    else
      var before := LoadedProjects(files[..|files| - 1]);
      match Decoded(files[|files| - 1])
      case None => before
      case Some(p) => before[p.projectId := p]
  }

  /** The insertion order of the keys of `LoadedProjects(files)`. */
  function LoadedOrder(files: seq<ConfigFile>): seq<string> {
    if |files| == 0 then []
    else
      var before := LoadedOrder(files[..|files| - 1]);
      match Decoded(files[|files| - 1])
      case None => before
      case Some(p) => if p.projectId in before then before else before + [p.projectId]
  }

  lemma {:induction false} LoadedOrderMatches(files: seq<ConfigFile>)
    ensures Distinct(LoadedOrder(files))
    ensures forall id :: id in LoadedProjects(files) <==> id in LoadedOrder(files)
  {
    if |files| > 0 {
      LoadedOrderMatches(files[..|files| - 1]);
    }
  }

  /** The parsed content of the directory, by file stem. */
  function DiskOf(files: seq<ConfigFile>): map<string, Json.Value> {
    if |files| == 0 then map[]
    else
      var before := DiskOf(files[..|files| - 1]);
      var f := files[|files| - 1];
      if f.content.Some? then before[f.stem := f.content.value] else before
  }

  /** The first active record in `ids`. */
  function FirstActive(ids: seq<string>, ps: map<string, ProjectConfig>): (r: Option<string>)
    requires forall i :: 0 <= i < |ids| ==> ids[i] in ps
    ensures r.Some? ==> r.value in ids && ps[r.value].status == Active
    ensures r.None? ==> forall i :: 0 <= i < |ids| ==> ps[ids[i]].status != Active
  {
    if |ids| == 0 then None
    else if ps[ids[0]].status == Active then Some(ids[0])
    else
      var r := FirstActive(ids[1..], ps);
      assert forall i :: 1 <= i < |ids| ==> ids[i] == ids[1..][i - 1];
      r
  }

  /** File names are distinct and every record is stored under its own id. */
  predicate WellNamed(files: seq<ConfigFile>) {
    (forall i, j :: 0 <= i < j < |files| ==> files[i].stem != files[j].stem)
    && (forall i :: 0 <= i < |files| && Decoded(files[i]).Some? ==> Decoded(files[i]).value.projectId == files[i].stem)
  }

  /** Every loaded record is named after some file. */
  lemma {:induction false} LoadedStems(files: seq<ConfigFile>)
    requires WellNamed(files)
    ensures forall id :: id in LoadedProjects(files) ==> exists i :: 0 <= i < |files| && files[i].stem == id
  {
    if |files| > 0 {
      var init := files[..|files| - 1];
      WellNamedPrefix(files);
      LoadedStems(init);
      forall id | id in LoadedProjects(files)
        ensures exists i :: 0 <= i < |files| && files[i].stem == id
      {
        if id in LoadedProjects(init) {
          var i :| 0 <= i < |init| && init[i].stem == id;
          assert files[i].stem == id;
        } else {
          assert files[|files| - 1].stem == id;
        }
      }
    }
  }

  lemma WellNamedPrefix(files: seq<ConfigFile>)
    requires WellNamed(files) && |files| > 0
    ensures WellNamed(files[..|files| - 1])
  {
  }

  /** Every loaded record is what the file named after it decodes to. */
  lemma {:induction false} LoadedFromOwnFile(files: seq<ConfigFile>)
    requires WellNamed(files)
    ensures SyncedWith(LoadedProjects(files), DiskOf(files))
  {
    if |files| > 0 {
      var init := files[..|files| - 1];
      var f := files[|files| - 1];
      WellNamedPrefix(files);
      LoadedFromOwnFile(init);
      LoadedStems(init);
      forall id | id in LoadedProjects(init)
        ensures id != f.stem
      {
        var i :| 0 <= i < |init| && init[i].stem == id;
        assert files[i].stem == id;
      }
    }
  }

  // ---------------------------------------------------------------------
  // The manager
  // ---------------------------------------------------------------------

  /**
   * The record `create_project` makes: an active project under `proj_` and
   * the first 12 characters of `hex`, with absolute paths, its watch
   * directories defaulting to the root, created and last active `now`.
   */
  function NewProject(name: string, rootPath: string, watchDirs: Option<seq<string>>, description: string,
                      hex: string, now: string, abspath: string -> string): (p: ProjectConfig)
    ensures p.projectId == "proj_" + Prefix(hex, 12)
    ensures p.status == Active && p.name == name && p.description == description
    ensures p.rootPath == abspath(rootPath)
    ensures var dirs := watchDirs.GetOr([rootPath]);
      |p.watchDirs| == |dirs| && forall i :: 0 <= i < |dirs| ==> p.watchDirs[i] == abspath(dirs[i])
    ensures p.createdAt == now && p.lastActive == now
    ensures p.fileExtensions == DefaultFileExtensions && p.decisions == [] && p.objectives == [] && p.metadata == map[]
  {
    var dirs := watchDirs.GetOr([rootPath]);
    var absDirs := seq(|dirs|, i requires 0 <= i < |dirs| => abspath(dirs[i]));
    ProjectConfig("proj_" + Prefix(hex, 12), name, abspath(rootPath), absDirs, Active, now, now, description,
      DefaultFileExtensions, [], [], map[])
  }

  /** Each record is filed under its own id, and `order` lists each id once. */
  ghost predicate Indexed(projects: map<string, ProjectConfig>, order: seq<string>) {
    (forall id :: id in projects ==> projects[id].projectId == id)
    && Distinct(order)
    && (forall id :: id in projects <==> id in order)
  }

  /** Every record is what its file decodes to. */
  ghost predicate SyncedWith(projects: map<string, ProjectConfig>, disk: map<string, Json.Value>) {
    forall id :: id in projects ==> id in disk && FromDict(disk[id]) == Some(projects[id])
  }

  /** Filing a record under its id keeps the index, its id appended to the order when new. */
  lemma StoreIndexed(projects: map<string, ProjectConfig>, order: seq<string>, p: ProjectConfig)
    requires Indexed(projects, order)
    ensures Indexed(projects[p.projectId := p], if p.projectId in projects then order else order + [p.projectId])
  {
  }

  /** Writing a record through keeps memory and files in step. */
  lemma StoreSynced(projects: map<string, ProjectConfig>, disk: map<string, Json.Value>, p: ProjectConfig)
    requires SyncedWith(projects, disk)
    ensures SyncedWith(projects[p.projectId := p], disk[p.projectId := ToDict(p)])
  {
    ProjectRoundTrip(p);
  }

  class ProjectManager {
    /** Records by project id. */
    var projects: map<string, ProjectConfig>
    /** The insertion order of the keys of `projects`. */
    var order: seq<string>
    var focusedProjectId: Option<string>
    /** The configuration directory: parsed file content by file stem. */
    ghost var disk: map<string, Json.Value>

    ghost predicate Valid()
      reads this
    {
      Indexed(projects, order) && (focusedProjectId.Some? ==> focusedProjectId.value in projects)
    }

    /** Every record in memory is what its file decodes to. */
    ghost predicate Synced()
      reads this
    {
      SyncedWith(projects, disk)
    }

    /** `__init__` followed by `load_all_projects` over the files found, in the order found. */
    constructor Load(files: seq<ConfigFile>)
      ensures Valid()
      ensures projects == LoadedProjects(files) && order == LoadedOrder(files)
      ensures focusedProjectId == FirstActive(order, projects)
      ensures disk == DiskOf(files)
      ensures WellNamed(files) ==> Synced()
    {
      var ps: map<string, ProjectConfig> := map[];
      var ids: seq<string> := [];
      ghost var d: map<string, Json.Value> := map[];
      var i := 0;
      while i < |files|
        invariant 0 <= i <= |files|
        invariant ps == LoadedProjects(files[..i]) && ids == LoadedOrder(files[..i])
        invariant d == DiskOf(files[..i])
      {
        var f := files[i];
        assert files[..i + 1][..i] == files[..i];
        if f.content.Some? {
          d := d[f.stem := f.content.value];
          var decoded := FromDict(f.content.value);
          if decoded.Some? {
            var p := decoded.value;
            if p.projectId !in ids {
              ids := ids + [p.projectId];
            }
            ps := ps[p.projectId := p];
          }
        }
        i := i + 1;
      }
      assert files[..i] == files;
      LoadedOrderMatches(files);
      projects := ps;
      order := ids;
      disk := d;
      focusedProjectId := FirstActive(ids, ps);
      if WellNamed(files) {
        LoadedFromOwnFile(files);
      }
    }

    /** `save_project`: the record's file now holds its JSON form. */
    method SaveProject(p: ProjectConfig)
      modifies this
      ensures disk == old(disk)[p.projectId := ToDict(p)]
      ensures projects == old(projects) && order == old(order) && focusedProjectId == old(focusedProjectId)
    {
      disk := disk[p.projectId := ToDict(p)];
    }

    /** Puts a record into the map under its id and writes it through. */
    method Store(p: ProjectConfig)
      requires Valid()
      modifies this
      ensures Valid()
      ensures projects == old(projects)[p.projectId := p]
      ensures order == if p.projectId in old(projects) then old(order) else old(order) + [p.projectId]
      ensures focusedProjectId == old(focusedProjectId)
      ensures disk == old(disk)[p.projectId := ToDict(p)]
      ensures old(Synced()) ==> Synced()
    {
      StoreIndexed(projects, order, p);
      if Synced() {
        StoreSynced(projects, disk, p);
      }
      if p.projectId !in projects {
        order := order + [p.projectId];
      }
      projects := projects[p.projectId := p];
      SaveProject(p);
    }

    /**
     * `create_project`: the new record is stored and written; it takes the
     * focus when it is then the only record.
     */
    method CreateProject(name: string, rootPath: string, watchDirs: Option<seq<string>>, description: string,
                         hex: string, now: string, abspath: string -> string) returns (p: ProjectConfig)
      requires Valid()
      modifies this
      ensures Valid()
      ensures p == NewProject(name, rootPath, watchDirs, description, hex, now, abspath)
      ensures projects == old(projects)[p.projectId := p]
      ensures order == if p.projectId in old(projects) then old(order) else old(order) + [p.projectId]
      ensures focusedProjectId == if |projects| == 1 then Some(p.projectId) else old(focusedProjectId)
      ensures disk == old(disk)[p.projectId := ToDict(p)]
      ensures old(Synced()) ==> Synced()
    {
      p := NewProject(name, rootPath, watchDirs, description, hex, now, abspath);
      Store(p);
      if |projects| == 1 {
        focusedProjectId := Some(p.projectId);
      }
    }

    function GetProject(id: string): (r: Option<ProjectConfig>)
      reads this
      ensures r.Some? <==> id in projects
      ensures r.Some? ==> r.value == projects[id]
    {
      if id in projects then Some(projects[id]) else None
    }

    /** The focused record; an unset or empty focus id gives none. */
    function GetFocusedProject(): (r: Option<ProjectConfig>)
      reads this
      requires Valid()
      ensures r.Some? <==> focusedProjectId.Some? && focusedProjectId.value != ""
      ensures r.Some? ==> r.value == projects[focusedProjectId.value]
    {
      if focusedProjectId.Some? && focusedProjectId.value != "" then GetProject(focusedProjectId.value) else None
    }

    /** `set_focus`: an unknown id changes nothing; a known one is focused, re-stamped and written. */
    method SetFocus(id: string, now: string) returns (ok: bool)
      requires Valid()
      modifies this
      ensures Valid()
      ensures ok <==> id in old(projects)
      ensures !ok ==> projects == old(projects) && focusedProjectId == old(focusedProjectId) && disk == old(disk)
      ensures ok ==> focusedProjectId == Some(id)
      ensures ok ==> projects == old(projects)[id := old(projects)[id].(lastActive := now)]
      ensures ok ==> disk == old(disk)[id := ToDict(projects[id])]
      ensures order == old(order)
      ensures old(Synced()) ==> Synced()
    {
      if id in projects {
        focusedProjectId := Some(id);
        Store(projects[id].(lastActive := now));
        ok := true;
      } else {
        ok := false;
      }
    }

    /** `update_status`: an unknown id changes nothing; otherwise only that record's status and `last_active` change. */
    method UpdateStatus(id: string, status: ProjectStatus, now: string) returns (ok: bool)
      requires Valid()
      modifies this
      ensures Valid()
      ensures ok <==> id in old(projects)
      ensures !ok ==> projects == old(projects) && disk == old(disk)
      ensures ok ==> projects == old(projects)[id := old(projects)[id].(status := status, lastActive := now)]
      ensures ok ==> disk == old(disk)[id := ToDict(projects[id])]
      ensures order == old(order) && focusedProjectId == old(focusedProjectId)
      ensures old(Synced()) ==> Synced()
    {
      if id in projects {
        Store(projects[id].(status := status, lastActive := now));
        ok := true;
      } else {
        ok := false;
      }
    }

    method PauseProject(id: string, now: string) returns (ok: bool)
      requires Valid()
      modifies this
      ensures Valid()
      ensures ok <==> id in old(projects)
      ensures !ok ==> projects == old(projects) && disk == old(disk)
      ensures ok ==> projects == old(projects)[id := old(projects)[id].(status := Paused, lastActive := now)]
      ensures ok ==> disk == old(disk)[id := ToDict(projects[id])]
      ensures order == old(order) && focusedProjectId == old(focusedProjectId)
      ensures old(Synced()) ==> Synced()
    {
      ok := UpdateStatus(id, Paused, now);
    }

    method ResumeProject(id: string, now: string) returns (ok: bool)
      requires Valid()
      modifies this
      ensures Valid()
      ensures ok <==> id in old(projects)
      ensures !ok ==> projects == old(projects) && disk == old(disk)
      ensures ok ==> projects == old(projects)[id := old(projects)[id].(status := Active, lastActive := now)]
      ensures ok ==> disk == old(disk)[id := ToDict(projects[id])]
      ensures order == old(order) && focusedProjectId == old(focusedProjectId)
      ensures old(Synced()) ==> Synced()
    {
      ok := UpdateStatus(id, Active, now);
    }

    method ArchiveProject(id: string, now: string) returns (ok: bool)
      requires Valid()
      modifies this
      ensures Valid()
      ensures ok <==> id in old(projects)
      ensures !ok ==> projects == old(projects) && disk == old(disk)
      ensures ok ==> projects == old(projects)[id := old(projects)[id].(status := Archived, lastActive := now)]
      ensures ok ==> disk == old(disk)[id := ToDict(projects[id])]
      ensures order == old(order) && focusedProjectId == old(focusedProjectId)
      ensures old(Synced()) ==> Synced()
    {
      ok := UpdateStatus(id, Archived, now);
    }

    /**
     * `add_decision`: none for an unknown project; otherwise one decision,
     * with id `dec_` and the first 8 characters of `hex`, appended at the end.
     */
    method AddDecision(id: string, decision: string, reasoning: string, tags: Option<seq<string>>,
                       hex: string, now: string) returns (r: Option<Decision>)
      requires Valid()
      modifies this
      ensures Valid()
      ensures r.Some? <==> id in old(projects)
      ensures r.None? ==> projects == old(projects) && disk == old(disk)
      ensures r.Some? ==> r.value == Decision("dec_" + Prefix(hex, 8), decision, reasoning, now, tags.GetOr([]))
      ensures r.Some? ==> projects == old(projects)[id := old(projects)[id].(
        decisions := old(projects)[id].decisions + [r.value], lastActive := now)]
      ensures r.Some? ==> disk == old(disk)[id := ToDict(projects[id])]
      ensures order == old(order) && focusedProjectId == old(focusedProjectId)
      ensures old(Synced()) ==> Synced()
    {
      if id !in projects {
        return None;
      }
      var p := projects[id];
      var d := Decision("dec_" + Prefix(hex, 8), decision, reasoning, now, tags.GetOr([]));
      Store(p.(decisions := p.decisions + [d], lastActive := now));
      r := Some(d);
    }

    /**
     * `add_objective`: none for an unknown project; otherwise one pending
     * objective, with id `obj_` and the first 8 characters of `hex`, appended at the end.
     */
    method AddObjective(id: string, title: string, description: string, priority: Option<string>,
                        hex: string, now: string) returns (r: Option<Objective>)
      requires Valid()
      modifies this
      ensures Valid()
      ensures r.Some? <==> id in old(projects)
      ensures r.None? ==> projects == old(projects) && disk == old(disk)
      ensures r.Some? ==> r.value.status == PendingStatus && r.value.completedAt == None
      ensures r.Some? ==> r.value == Objective("obj_" + Prefix(hex, 8), title, description, now, None,
        PendingStatus, priority.GetOr(DefaultPriority))
      ensures r.Some? ==> projects == old(projects)[id := old(projects)[id].(
        objectives := old(projects)[id].objectives + [r.value], lastActive := now)]
      ensures r.Some? ==> disk == old(disk)[id := ToDict(projects[id])]
      ensures order == old(order) && focusedProjectId == old(focusedProjectId)
      ensures old(Synced()) ==> Synced()
    {
      if id !in projects {
        return None;
      }
      var p := projects[id];
      var o := Objective("obj_" + Prefix(hex, 8), title, description, now, None, PendingStatus, priority.GetOr(DefaultPriority));
      Store(p.(objectives := p.objectives + [o], lastActive := now));
      r := Some(o);
    }

    /**
     * `complete_objective`: false when the project is unknown or has no
     * objective with that id; otherwise the first such objective is completed.
     */
    method CompleteObjective(id: string, objectiveId: string, now: string) returns (ok: bool)
      requires Valid()
      modifies this
      ensures Valid()
      ensures ok <==> id in old(projects) && FirstObjectiveIndex(old(projects)[id].objectives, objectiveId).Some?
      ensures !ok ==> projects == old(projects) && disk == old(disk)
      ensures ok ==> var os := old(projects)[id].objectives;
        var k := FirstObjectiveIndex(os, objectiveId).value;
        projects == old(projects)[id := old(projects)[id].(objectives := os[k := Complete(os[k], now)], lastActive := now)]
      ensures ok ==> disk == old(disk)[id := ToDict(projects[id])]
      ensures order == old(order) && focusedProjectId == old(focusedProjectId)
      ensures old(Synced()) ==> Synced()
    {
      if id !in projects {
        return false;
      }
      var p := projects[id];
      var os := p.objectives;
      var i := 0;
      while i < |os|
        invariant 0 <= i <= |os|
        invariant forall k :: 0 <= k < i ==> os[k].id != objectiveId
        invariant projects == old(projects) && disk == old(disk)
      {
        if os[i].id == objectiveId {
          assert FirstObjectiveIndex(os, objectiveId) == Some(i) by {
            var r := FirstObjectiveIndex(os, objectiveId);
            assert r.Some?;
            assert r.value >= i;
          }
          Store(p.(objectives := os[i := Complete(os[i], now)], lastActive := now));
          return true;
        }
        i := i + 1;
      }
      return false;
    }

    /** `get_active_projects`: the active records in insertion order. */
    function GetActiveProjects(): (r: seq<ProjectConfig>)
      reads this
      requires Valid()
      ensures forall p :: p in r ==> p.status == Active && p.projectId in projects && projects[p.projectId] == p
      ensures forall id :: id in projects && projects[id].status == Active ==> projects[id] in r
      ensures r == WithStatus(order, projects, Active)
    {
      var r := WithStatus(order, projects, Active);
      assert forall id :: id in projects ==> exists i :: 0 <= i < |order| && order[i] == id;
      r
    }

    /** `get_all_watch_dirs`: the watch directories of active records, without duplicates. */
    function GetAllWatchDirs(): (r: set<string>)
      reads this
      requires Valid()
      ensures forall d :: d in r <==> exists id :: id in projects && projects[id].status == Active && d in projects[id].watchDirs
    {
      var active := GetActiveProjects();
      var r := WatchDirsOf(active);
      assert forall d :: d in r ==> exists id :: id in projects && projects[id].status == Active && d in projects[id].watchDirs by {
        forall d | d in r
          ensures exists id :: id in projects && projects[id].status == Active && d in projects[id].watchDirs
        {
          var i :| 0 <= i < |active| && d in active[i].watchDirs;
          assert active[i] in active;
          var id := active[i].projectId;
          assert projects[id] == active[i];
        }
      }
      r
    }

    /** `export_context`: the empty context for an unknown id, else the record's context. */
    function ExportContext(id: string): (r: ExportedContext)
      reads this
      ensures r.NoContext? <==> id !in projects
      ensures r.Context? ==> r == ExportRecord(projects[id])
    {
      if id in projects then ExportRecord(projects[id]) else NoContext
    }

    /** `get_project_summary`: counts by status and one row per record in insertion order. */
    function GetProjectSummary(): (r: Summary)
      reads this
      requires Valid()
      ensures |r.projects| == |order|
      ensures r.totalProjects == |projects| == |r.projects|
      ensures r.totalProjects == r.activeProjects + r.pausedProjects + r.archivedProjects
      ensures r.focusedProject == focusedProjectId
      ensures forall i :: 0 <= i < |r.projects| ==> r.projects[i] == Row(projects[order[i]])
      ensures forall i :: 0 <= i < |r.projects| ==>
        r.projects[i].objectivesPending + |CompletedObjectives(projects[order[i]].objectives)| == |projects[order[i]].objectives|
    {
      DistinctKeysCount(order, projects);
      StatusCountsAddUp(order, projects);
      Summary(
        |projects|,
        |WithStatus(order, projects, Active)|,
        |WithStatus(order, projects, Paused)|,
        |WithStatus(order, projects, Archived)|,
        focusedProjectId,
        Rows(order, projects))
    }
  }
}
