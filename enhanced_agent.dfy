/**
 * The proposed multi-project manager of
 * `Proposed_enhancments/enhanced_rag_agent.py`: project sessions in memory,
 * in which "focused" is a status that at most one project holds, together
 * with the agent's read-only routing of terminal activity to projects and
 * its objective summary.
 *
 * `save_projects` rewrites one registry file holding every session and the
 * active project id; it is the ghost field `saved`. As written it hands
 * `json.dump` the status as an enum member, so every save with a session
 * raises and leaves the file truncated; `SaveProjectsByValue` is the save
 * that writes the status by its value. The clock is the argument `now` (and
 * `seconds` for the integer time of a new id).
 */
module EnhancedAgent {
  import opened Wrappers
  import opened Strings
  import Json
  import ProjectStore

  // ---------------------------------------------------------------------
  // Sessions
  // ---------------------------------------------------------------------

  datatype ProjectStatus = Active | Paused | Archived | Focused

  /** The enum's string value. */
  function StatusValue(s: ProjectStatus): string {
    match s
    case Active => "active"
    case Paused => "paused"
    case Archived => "archived"
    case Focused => "focused"
  }

  /** `ProjectSession`; objectives and decisions are the dictionaries the manager appends. */
  datatype ProjectSession = ProjectSession(
    projectId: string,
    name: string,
    rootPath: string,
    status: ProjectStatus,
    watchDirs: seq<string>,
    focusedTerminals: seq<int>,
    createdAt: string,
    lastActive: string,
    objectives: seq<map<string, Json.Value>>,
    decisions: seq<map<string, Json.Value>>)

  /** A session built with only its required fields: `__post_init__` stamps both times and empties the lists. */
  function NewSession(projectId: string, name: string, rootPath: string, status: ProjectStatus,
                      watchDirs: seq<string>, now: string): (s: ProjectSession)
    ensures s.projectId == projectId && s.status == status && s.watchDirs == watchDirs
    ensures s.createdAt == now && s.lastActive == now
    ensures s.focusedTerminals == [] && s.objectives == [] && s.decisions == []
  {
    ProjectSession(projectId, name, rootPath, status, watchDirs, [], now, now, [], [])
  }

  /** The id `create_project` gives: `proj_` and the integer time in seconds. */
  function SessionId(seconds: nat): (id: string)
    ensures StartsWith(id, "proj_")
  {
    "proj_" + NatToString(seconds)
  }

  /** The objective record `add_objective` appends. */
  function ObjectiveEntry(text: string, now: string): (o: map<string, Json.Value>)
    ensures o.Keys == {"text", "timestamp", "completed"}
    ensures o["text"] == Json.Str(text) && o["timestamp"] == Json.Str(now) && o["completed"] == Json.Bool(false)
  {
    map["text" := Json.Str(text), "timestamp" := Json.Str(now), "completed" := Json.Bool(false)]
  }

  /** The decision record `add_decision` appends; `context` defaults to "" and `importance` to "normal" at the call. */
  function DecisionEntry(decision: string, context: string, importance: string, now: string): (d: map<string, Json.Value>)
    ensures d.Keys == {"decision", "context", "importance", "timestamp"}
    ensures d["decision"] == Json.Str(decision) && d["context"] == Json.Str(context)
    ensures d["importance"] == Json.Str(importance) && d["timestamp"] == Json.Str(now)
  {
    map["decision" := Json.Str(decision), "context" := Json.Str(context),
        "importance" := Json.Str(importance), "timestamp" := Json.Str(now)]
  }

  /** An objective marked complete: `completed` true and `completed_at` stamped, every other entry kept. */
  function Completed(o: map<string, Json.Value>, now: string): (r: map<string, Json.Value>)
    ensures r.Keys == o.Keys + {"completed", "completed_at"}
    ensures r["completed"] == Json.Bool(true) && r["completed_at"] == Json.Str(now)
    ensures forall k :: k in o && k != "completed" && k != "completed_at" ==> r[k] == o[k]
  {
    o["completed" := Json.Bool(true)]["completed_at" := Json.Str(now)]
  }

  /** `o.get('completed', False)` taken as a truth value. */
  predicate IsDone(o: map<string, Json.Value>) {
    Json.Truthy(Json.Get(o, "completed").GetOr(Json.Bool(false)))
  }

  /** A new objective is not done, and a completed one is. */
  lemma DoneMarks(o: map<string, Json.Value>, text: string, now: string)
    ensures !IsDone(ObjectiveEntry(text, now))
    ensures IsDone(Completed(o, now))
  {
  }

  // ---------------------------------------------------------------------
  // The registry
  // ---------------------------------------------------------------------

  /** What `save_projects` puts in its dictionary: every session in dictionary order, and the active project id. */
  datatype Registry = Registry(projects: seq<ProjectSession>, activeProjectId: Option<string>)

  /** One value of `asdict(session)`: JSON data, or the status, which `asdict` leaves as the enum member. */
  datatype Field = Data(value: Json.Value) | Member(member: ProjectStatus)

  /** The focused terminal ids as a JSON array. */
  function IntArray(xs: seq<int>): (r: Json.Value)
    ensures r.Array? && |r.items| == |xs| && forall i :: 0 <= i < |xs| ==> r.items[i] == Json.Int(xs[i])
  {
    Json.Array(seq(|xs|, i requires 0 <= i < |xs| => Json.Int(xs[i])))
  }

  /** A list of dictionaries as a JSON array of objects. */
  function ObjectArray(xs: seq<map<string, Json.Value>>): (r: Json.Value)
    ensures r.Array? && |r.items| == |xs| && forall i :: 0 <= i < |xs| ==> r.items[i] == Json.Object(xs[i])
  {
    Json.Array(seq(|xs|, i requires 0 <= i < |xs| => Json.Object(xs[i])))
  }

  /** `asdict(session)`: the ten fields in declaration order, with `status` given as `status`. */
  function Fields(s: ProjectSession, status: Field): seq<(string, Field)> {
    [("project_id", Data(Json.Str(s.projectId))), ("name", Data(Json.Str(s.name))),
     ("root_path", Data(Json.Str(s.rootPath))), ("status", status),
     ("watch_dirs", Data(Json.StrArray(s.watchDirs))), ("focused_terminals", Data(IntArray(s.focusedTerminals))),
     ("created_at", Data(Json.Str(s.createdAt))), ("last_active", Data(Json.Str(s.lastActive))),
     ("objectives", Data(ObjectArray(s.objectives))), ("decisions", Data(ObjectArray(s.decisions)))]
  }

  /** `asdict(session)` as `save_projects` calls it: the status stays the enum member. */
  function AsDict(s: ProjectSession): (fs: seq<(string, Field)>)
    ensures |fs| == 10 && fs[3] == ("status", Member(s.status))
    ensures forall k :: 0 <= k < |fs| && k != 3 ==> fs[k].1.Data?
  {
    Fields(s, Member(s.status))
  }

  /** The dictionary with the status written as its string value, as `to_dict` of `project_manager.py` does. */
  function AsDictByValue(s: ProjectSession): (fs: seq<(string, Field)>)
    ensures |fs| == 10 && fs[3] == ("status", Data(Json.Str(StatusValue(s.status))))
    ensures forall k :: 0 <= k < |fs| ==> fs[k].1.Data?
  {
    Fields(s, Data(Json.Str(StatusValue(s.status))))
  }

  /** `json.dump` can encode the entries: none of them is an enum member. */
  predicate Encodable(fs: seq<(string, Field)>) {
    forall k :: 0 <= k < |fs| ==> fs[k].1.Data?
  }

  /**
   * The registry file: not written yet, a whole document, or the opening that
   * `json.dump` had written when it raised, after `open(..., 'w')` had
   * already emptied the file.
   */
  datatype RegistryFile = NoFile | Complete(registry: Registry) | Truncated

  /** `save_projects`: `json.dump` of the sessions, each turned into a dictionary by `asDict`; any value it cannot encode raises. */
  function Dump(r: Registry, asDict: ProjectSession -> seq<(string, Field)>): (f: RegistryFile)
    ensures f.Complete? ==> f.registry == r
    ensures |r.projects| == 0 ==> f == Complete(r)
  {
    if forall i :: 0 <= i < |r.projects| ==> Encodable(asDict(r.projects[i])) then Complete(r) else Truncated
  }

  /** As written, the dump succeeds only with no session: the first session's status is an enum member, and `json.dump` raises at it. */
  lemma DumpFailsWithSession(r: Registry)
    ensures Dump(r, AsDict) == if |r.projects| == 0 then Complete(r) else Truncated
  {
    if |r.projects| > 0 {
      var fs := AsDict(r.projects[0]);
      assert !fs[3].1.Data?;
      assert !Encodable(fs);
    }
  }

  /** Writing the status by its value, every dump is a whole document. */
  lemma DumpByValueCompletes(r: Registry)
    ensures Dump(r, AsDictByValue) == Complete(r)
  {
  }

  /** Every key is a session's own id, and `order` lists the keys once each in insertion order. */
  ghost predicate Indexed(projects: map<string, ProjectSession>, order: seq<string>) {
    (forall id :: id in projects ==> projects[id].projectId == id)
    && ProjectStore.Distinct(order)
    && (forall id :: id in projects <==> id in order)
  }

  /** The sessions in dictionary order. */
  function InOrder(projects: map<string, ProjectSession>, order: seq<string>): (r: seq<ProjectSession>)
    requires forall i :: 0 <= i < |order| ==> order[i] in projects
    ensures |r| == |order| && forall i :: 0 <= i < |order| ==> r[i] == projects[order[i]]
  {
    seq(|order|, i requires 0 <= i < |order| => projects[order[i]])
  }

  /** No two sessions are focused. */
  predicate AtMostOneFocused(projects: map<string, ProjectSession>) {
    forall a, b :: a in projects && b in projects && projects[a].status == Focused && projects[b].status == Focused ==> a == b
  }

  /**
   * The sessions after `set_project_status(id, status)` on a known id: the
   * target takes the status and the time; when the status is focused, every
   * other focused session becomes active.
   */
  function StatusSet(projects: map<string, ProjectSession>, id: string, status: ProjectStatus, now: string): (r: map<string, ProjectSession>)
    requires id in projects
    ensures r.Keys == projects.Keys
  {
    map o | o in projects ::
      if o == id then projects[o].(status := status, lastActive := now)
      else if status == Focused && projects[o].status == Focused then projects[o].(status := Active)
      else projects[o]
  }

  /** Focusing a session leaves it the only focused one. */
  lemma FocusIsExclusive(projects: map<string, ProjectSession>, id: string, now: string)
    requires id in projects
    ensures var r := StatusSet(projects, id, Focused, now);
      r[id].status == Focused && forall o :: o in r && r[o].status == Focused ==> o == id
  {
  }

  /** Any status change keeps at most one session focused. */
  lemma StatusSetKeepsOneFocused(projects: map<string, ProjectSession>, id: string, status: ProjectStatus, now: string)
    requires id in projects && AtMostOneFocused(projects)
    ensures AtMostOneFocused(StatusSet(projects, id, status, now))
  {
  }

  /**
   * On a known id: the target's status and time are set, another session
   * changes only when the target is focused and it was focused, and then it
   * becomes active with nothing else changed.
   */
  lemma StatusSetChanges(projects: map<string, ProjectSession>, id: string, status: ProjectStatus, now: string)
    requires id in projects
    ensures var r := StatusSet(projects, id, status, now);
      r[id] == projects[id].(status := status, lastActive := now)
      && (forall o :: o in projects && o != id && r[o] != projects[o] ==>
            status == Focused && projects[o].status == Focused && r[o] == projects[o].(status := Active))
      && (forall o :: o in projects && o != id && status == Focused && projects[o].status == Focused ==> r[o].status == Active)
  {
  }

  /** The sessions after the unfocusing loop has visited the keys in `done`: those focused, other than `id`, are active. */
  function Demoted(projects: map<string, ProjectSession>, id: string, done: seq<string>): (r: map<string, ProjectSession>) {
    map o | o in projects ::
      if o != id && o in done && projects[o].status == Focused then projects[o].(status := Active) else projects[o]
  }

  /** One more visited key; visiting a key twice changes nothing more. */
  lemma DemotedStep(projects: map<string, ProjectSession>, id: string, done: seq<string>, pid: string)
    requires pid in projects
    ensures var cur := Demoted(projects, id, done);
      Demoted(projects, id, done + [pid]) ==
        if pid != id && cur[pid].status == Focused then cur[pid := cur[pid].(status := Active)] else cur
  {
  }

  /** The unfocusing loop over the keys `ids`, in that order: every focused session other than `id` becomes active. */
  method DemoteOthers(projects: map<string, ProjectSession>, id: string, ids: seq<string>) returns (r: map<string, ProjectSession>)
    requires forall k :: 0 <= k < |ids| ==> ids[k] in projects
    ensures r == Demoted(projects, id, ids)
  {
    r := projects;
    for i := 0 to |ids|
      invariant r == Demoted(projects, id, ids[..i])
    {
      var pid := ids[i];
      DemotedStep(projects, id, ids[..i], pid);
      if pid != id && r[pid].status == Focused {
        r := r[pid := r[pid].(status := Active)];
      }
      assert ids[..i + 1] == ids[..i] + [pid];
    }
    assert ids[..|ids|] == ids;
  }

  /** Demoting sessions keeps the index. */
  lemma DemotedIndexed(projects: map<string, ProjectSession>, id: string, order: seq<string>)
    requires Indexed(projects, order)
    ensures Indexed(Demoted(projects, id, order), order)
  {
  }

  /** Filing a session under its id keeps the index, its id appended to the order when new. */
  lemma FileSession(projects: map<string, ProjectSession>, order: seq<string>, s: ProjectSession)
    requires Indexed(projects, order)
    ensures Indexed(projects[s.projectId := s], if s.projectId in projects then order else order + [s.projectId])
  {
  }

  /** Filing a session that is not focused keeps at most one session focused. */
  lemma UnfocusedKeepsOneFocused(projects: map<string, ProjectSession>, s: ProjectSession)
    requires AtMostOneFocused(projects) && s.status != Focused
    ensures AtMostOneFocused(projects[s.projectId := s])
  {
  }

  /** Replacing a session by one of the same status keeps at most one session focused. */
  lemma SameStatusKeepsOneFocused(projects: map<string, ProjectSession>, s: ProjectSession)
    requires s.projectId in projects && projects[s.projectId].status == s.status
    ensures AtMostOneFocused(projects) ==> AtMostOneFocused(projects[s.projectId := s])
  {
  }

  /** A status other than focused changes the target alone. */
  lemma TargetOnly(projects: map<string, ProjectSession>, id: string, status: ProjectStatus, now: string)
    requires id in projects && status != Focused
    ensures projects[id := projects[id].(status := status, lastActive := now)] == StatusSet(projects, id, status, now)
  {
  }

  /** Visiting every key after the target's update is `StatusSet` with the focused status. */
  lemma DemotedAll(projects: map<string, ProjectSession>, id: string, now: string, order: seq<string>)
    requires id in projects && forall o :: o in projects ==> o in order
    ensures Demoted(projects[id := projects[id].(status := Focused, lastActive := now)], id, order) == StatusSet(projects, id, Focused, now)
  {
  }

  /** The sessions the agent may route to: all but archived ones. */
  predicate Routable(p: ProjectSession) {
    p.status != Archived
  }

  /** The working directory lies under one of the session's watch directories or under its root, as a string prefix. */
  predicate Claims(p: ProjectSession, workingDir: string) {
    (exists k :: 0 <= k < |p.watchDirs| && StartsWith(workingDir, p.watchDirs[k])) || StartsWith(workingDir, p.rootPath)
  }

  /** The id of the first routable session, in order, that claims the working directory. */
  function FirstClaimant(ss: seq<ProjectSession>, workingDir: string): (r: Option<string>)
    decreases |ss|
  {
    if |ss| == 0 then None
    else if Routable(ss[0]) && Claims(ss[0], workingDir) then Some(ss[0].projectId)
    else FirstClaimant(ss[1..], workingDir)
  }

  /** `FirstClaimant` names a claiming, routable session ahead of all others, and is none exactly when there is none. */
  lemma {:induction false} FirstClaimantSpec(ss: seq<ProjectSession>, workingDir: string)
    ensures FirstClaimant(ss, workingDir).None? <==>
      forall i :: 0 <= i < |ss| ==> !(Routable(ss[i]) && Claims(ss[i], workingDir))
    ensures FirstClaimant(ss, workingDir).Some? ==>
      exists i :: (0 <= i < |ss| && ss[i].projectId == FirstClaimant(ss, workingDir).value
                   && Routable(ss[i]) && Claims(ss[i], workingDir)
                   && forall j :: 0 <= j < i ==> !(Routable(ss[j]) && Claims(ss[j], workingDir)))
    decreases |ss|
  {
    if |ss| > 0 && !(Routable(ss[0]) && Claims(ss[0], workingDir)) {
      var rest := ss[1..];
      FirstClaimantSpec(rest, workingDir);
      assert forall i :: 1 <= i < |ss| ==> ss[i] == rest[i - 1];
      var r := FirstClaimant(rest, workingDir);
      if r.Some? {
        var i :| 0 <= i < |rest| && rest[i].projectId == r.value && Routable(rest[i]) && Claims(rest[i], workingDir)
          && forall j :: 0 <= j < i ==> !(Routable(rest[j]) && Claims(rest[j], workingDir));
        assert ss[i + 1] == rest[i];
        forall j | 0 <= j < i + 1
          ensures !(Routable(ss[j]) && Claims(ss[j], workingDir))
        {
          if j > 0 {
            assert ss[j] == rest[j - 1];
          }
        }
      }
    }
  }

  /** What `get_focused_projects` keeps. */
  predicate IsFocused(s: ProjectSession) {
    s.status == Focused
  }

  /** What `get_active_projects` keeps: active or focused sessions. */
  predicate IsLive(s: ProjectSession) {
    s.status == Active || s.status == Focused
  }

  /** The sessions of `ss` that satisfy `keep`, in order. */
  function Having(ss: seq<ProjectSession>, keep: ProjectSession -> bool): (r: seq<ProjectSession>)
    ensures forall s :: s in r <==> s in ss && keep(s)
    decreases |ss|
  {
    if |ss| == 0 then []
    else
      assert ss == ss[..|ss| - 1] + [ss[|ss| - 1]];
      Having(ss[..|ss| - 1], keep) + (if keep(ss[|ss| - 1]) then [ss[|ss| - 1]] else [])
  }

  // ---------------------------------------------------------------------
  // Objective summary
  // ---------------------------------------------------------------------

  /** The objectives not yet completed, in order. */
  function Current(objectives: seq<map<string, Json.Value>>): (r: seq<map<string, Json.Value>>)
    decreases |objectives|
  {
    if |objectives| == 0 then []
    else Current(objectives[..|objectives| - 1]) + (if IsDone(objectives[|objectives| - 1]) then [] else [objectives[|objectives| - 1]])
  }

  /** The number of completed objectives. */
  function CompletedCount(objectives: seq<map<string, Json.Value>>): nat
    decreases |objectives|
  {
    if |objectives| == 0 then 0
    else CompletedCount(objectives[..|objectives| - 1]) + (if IsDone(objectives[|objectives| - 1]) then 1 else 0)
  }

  /** The `objectives_status` entry of `get_project_context`. */
  datatype ObjectivesStatus = ObjectivesStatus(total: nat, completed: nat, current: seq<map<string, Json.Value>>)

  function StatusOfObjectives(objectives: seq<map<string, Json.Value>>): (r: ObjectivesStatus)
    ensures r.total == |objectives|
  {
    ObjectivesStatus(|objectives|, CompletedCount(objectives), Current(objectives))
  }

  /** Completed and current objectives account for all of them, and the current ones are exactly those not done. */
  lemma {:induction false} ObjectivesAddUp(objectives: seq<map<string, Json.Value>>)
    ensures var st := StatusOfObjectives(objectives);
      st.completed + |st.current| == st.total
      && forall o :: o in st.current <==> o in objectives && !IsDone(o)
    decreases |objectives|
  {
    if |objectives| > 0 {
      var front := objectives[..|objectives| - 1];
      ObjectivesAddUp(front);
      assert objectives == front + [objectives[|objectives| - 1]];
    }
  }

  /** A new objective is current, and one more objective is outstanding. */
  lemma NewObjectiveIsCurrent(objectives: seq<map<string, Json.Value>>, text: string, now: string)
    ensures var st := StatusOfObjectives(objectives + [ObjectiveEntry(text, now)]);
      st.completed == StatusOfObjectives(objectives).completed && st.current == Current(objectives) + [ObjectiveEntry(text, now)]
  {
    var xs := objectives + [ObjectiveEntry(text, now)];
    assert xs[..|xs| - 1] == objectives;
  }

  // ---------------------------------------------------------------------
  // The manager
  // ---------------------------------------------------------------------

  /** `ProjectManager` of the proposed agent. */
  class ProjectManager {
    /** Sessions by project id. */
    var projects: map<string, ProjectSession>
    /** The insertion order of the keys of `projects`. */
    var order: seq<string>
    var activeProjectId: Option<string>
    /** The registry file as last written. */
    ghost var saved: RegistryFile

    ghost predicate Valid()
      reads this
    {
      Indexed(projects, order)
    }

    /** The registry `save_projects` writes: the sessions in order and the active id. */
    ghost function Snapshot(): Registry
      reads this
      requires Valid()
    {
      Registry(InOrder(projects, order), activeProjectId)
    }

    /** The registry file holds the sessions and the active id as they are in memory. */
    ghost predicate Persisted()
      reads this
      requires Valid()
    {
      saved == Complete(Snapshot())
    }

    /** A manager whose registry file does not exist yet. */
    constructor ()
      ensures Valid() && AtMostOneFocused(projects)
      ensures projects == map[] && order == [] && activeProjectId == None
    {
      projects := map[];
      order := [];
      activeProjectId := None;
      saved := NoFile;
    }

    /**
     * `save_projects`: with no session the registry is written whole; with
     * any session `json.dump` raises `TypeError` at the first status and
     * leaves the file truncated.
     */
    method SaveProjects() returns (raised: bool)
      requires Valid()
      modifies this`saved
      ensures saved == Dump(Snapshot(), AsDict)
      ensures raised <==> projects != map[]
      ensures raised ==> saved == Truncated
      ensures !raised ==> Persisted()
    {
      var r := Registry(InOrder(projects, order), activeProjectId);
      DumpFailsWithSession(r);
      var file := Dump(r, AsDict);
      saved := file;
      raised := !file.Complete?;
      if |order| == 0 {
        assert forall id :: id !in projects;
      } else {
        assert order[0] in projects;
      }
    }

    /** The intended `save_projects`, writing each status by its value: the registry then holds the sessions and the active id. */
    method SaveProjectsByValue()
      requires Valid()
      modifies this`saved
      ensures Persisted()
    {
      var r := Registry(InOrder(projects, order), activeProjectId);
      DumpByValueCompletes(r);
      saved := Dump(r, AsDictByValue);
    }

    /**
     * `create_project`: an active session under `proj_<seconds>`, watching
     * the root when no directories are given; a session created in the same
     * second is overwritten. It becomes the active project only if there was
     * none. The closing save always raises, since the new session is there to
     * be written, so the id is never returned.
     */
    method CreateProject(name: string, rootPath: string, watchDirs: Option<seq<string>>, seconds: nat, now: string)
      returns (raised: bool)
      requires Valid()
      modifies this
      ensures Valid() && raised && saved == Truncated
      ensures var id := SessionId(seconds);
        projects == old(projects)[id := NewSession(id, name, rootPath, Active, watchDirs.GetOr([rootPath]), now)]
        && order == (if id in old(projects) then old(order) else old(order) + [id])
        && activeProjectId == if old(activeProjectId).None? then Some(id) else old(activeProjectId)
      ensures old(AtMostOneFocused(projects)) ==> AtMostOneFocused(projects)
    {
      var id := SessionId(seconds);
      var dirs := if watchDirs.None? then [rootPath] else watchDirs.value;
      var session := NewSession(id, name, rootPath, Active, dirs, now);
      assert dirs == watchDirs.GetOr([rootPath]);
      FileSession(projects, order, session);
      if AtMostOneFocused(projects) {
        UnfocusedKeepsOneFocused(projects, session);
      }
      if id !in projects {
        order := order + [id];
      }
      projects := projects[id := session];
      if activeProjectId.None? {
        activeProjectId := Some(id);
      }
      raised := SaveProjects();
    }

    /**
     * `set_project_status`: an unknown id changes nothing; otherwise the
     * target takes the status and the time, focusing it turns every other
     * focused session back to active, and the save then raises.
     */
    method SetProjectStatus(id: string, status: ProjectStatus, now: string) returns (raised: bool)
      requires Valid()
      modifies this
      ensures Valid()
      ensures order == old(order) && activeProjectId == old(activeProjectId)
      ensures raised <==> id in old(projects)
      ensures id !in old(projects) ==> projects == old(projects) && saved == old(saved)
      ensures id in old(projects) ==> projects == StatusSet(old(projects), id, status, now) && saved == Truncated
      ensures status == Focused && id in old(projects) ==> AtMostOneFocused(projects)
      ensures old(AtMostOneFocused(projects)) ==> AtMostOneFocused(projects)
    {
      raised := false;
      if id in projects {
        ApplyStatus(id, status, now);
        raised := SaveProjects();
      }
    }

    /** The in-memory part of `set_project_status` for a known id. */
    method ApplyStatus(id: string, status: ProjectStatus, now: string)
      requires Valid() && id in projects
      modifies this`projects
      ensures Valid() && id in projects
      ensures projects == StatusSet(old(projects), id, status, now)
      ensures status == Focused ==> AtMostOneFocused(projects)
      ensures old(AtMostOneFocused(projects)) ==> AtMostOneFocused(projects)
    {
      ghost var before := projects;
      projects := projects[id := projects[id].(status := status, lastActive := now)];
      if status == Focused {
        UnfocusOthers(id);
        DemotedAll(before, id, now, order);
        FocusIsExclusive(before, id, now);
      } else {
        TargetOnly(before, id, status, now);
      }
      if AtMostOneFocused(before) {
        StatusSetKeepsOneFocused(before, id, status, now);
      }
    }

    /** A known session replaced by an updated copy with the same status. */
    method Refile(s: ProjectSession)
      requires Valid() && s.projectId in projects && projects[s.projectId].status == s.status
      modifies this`projects
      ensures Valid() && projects == old(projects)[s.projectId := s]
      ensures old(AtMostOneFocused(projects)) ==> AtMostOneFocused(projects)
    {
      SameStatusKeepsOneFocused(projects, s);
      FileSession(projects, order, s);
      projects := projects[s.projectId := s];
    }

    /** The loop of `set_project_status` that turns every focused session other than `id` to active. */
    method UnfocusOthers(id: string)
      requires Valid()
      modifies this`projects
      ensures Valid()
      ensures projects == Demoted(old(projects), id, order)
    {
      DemotedIndexed(projects, id, order);
      projects := DemoteOthers(projects, id, order);
    }

    /** `add_objective`: a pending objective appended to a known session, whose save then raises; a no-op otherwise. */
    method AddObjective(id: string, text: string, now: string) returns (raised: bool)
      requires Valid()
      modifies this
      ensures Valid()
      ensures order == old(order) && activeProjectId == old(activeProjectId)
      ensures raised <==> id in old(projects)
      ensures id !in old(projects) ==> projects == old(projects) && saved == old(saved)
      ensures id in old(projects) ==> saved == Truncated && projects == old(projects)[id :=
        old(projects)[id].(objectives := old(projects)[id].objectives + [ObjectiveEntry(text, now)])]
      ensures old(AtMostOneFocused(projects)) ==> AtMostOneFocused(projects)
    {
      raised := false;
      if id in projects {
        var p := projects[id];
        Refile(p.(objectives := p.objectives + [ObjectiveEntry(text, now)]));
        raised := SaveProjects();
      }
    }

    /**
     * `mark_objective_complete`: an in-range index of a known session is
     * marked complete and the save then raises; anything else is a no-op.
     */
    method MarkObjectiveComplete(id: string, index: int, now: string) returns (raised: bool)
      requires Valid()
      modifies this
      ensures Valid()
      ensures order == old(order) && activeProjectId == old(activeProjectId)
      ensures raised <==> id in old(projects) && 0 <= index < |old(projects)[id].objectives|
      ensures !(id in old(projects) && 0 <= index < |old(projects)[id].objectives|) ==>
        projects == old(projects) && saved == old(saved)
      ensures id in old(projects) && 0 <= index < |old(projects)[id].objectives| ==>
        var objs := old(projects)[id].objectives;
        saved == Truncated && projects == old(projects)[id := old(projects)[id].(objectives := objs[index := Completed(objs[index], now)])]
      ensures old(AtMostOneFocused(projects)) ==> AtMostOneFocused(projects)
    {
      raised := false;
      if id in projects {
        var p := projects[id];
        if 0 <= index < |p.objectives| {
          Refile(p.(objectives := p.objectives[index := Completed(p.objectives[index], now)]));
          raised := SaveProjects();
        }
      }
    }

    /** `add_decision`: a decision record appended to a known session, whose save then raises; a no-op otherwise. */
    method AddDecision(id: string, decision: string, context: string, importance: string, now: string) returns (raised: bool)
      requires Valid()
      modifies this
      ensures Valid()
      ensures order == old(order) && activeProjectId == old(activeProjectId)
      ensures raised <==> id in old(projects)
      ensures id !in old(projects) ==> projects == old(projects) && saved == old(saved)
      ensures id in old(projects) ==> saved == Truncated && projects == old(projects)[id :=
        old(projects)[id].(decisions := old(projects)[id].decisions + [DecisionEntry(decision, context, importance, now)])]
      ensures old(AtMostOneFocused(projects)) ==> AtMostOneFocused(projects)
    {
      raised := false;
      if id in projects {
        var p := projects[id];
        Refile(p.(decisions := p.decisions + [DecisionEntry(decision, context, importance, now)]));
        raised := SaveProjects();
      }
    }

    /** `focus_terminals`: a known session's focused terminal ids are replaced, and the save then raises. */
    method FocusTerminals(id: string, pids: seq<int>) returns (raised: bool)
      requires Valid()
      modifies this
      ensures Valid()
      ensures order == old(order) && activeProjectId == old(activeProjectId)
      ensures raised <==> id in old(projects)
      ensures id !in old(projects) ==> projects == old(projects) && saved == old(saved)
      ensures id in old(projects) ==> saved == Truncated && projects == old(projects)[id := old(projects)[id].(focusedTerminals := pids)]
      ensures old(AtMostOneFocused(projects)) ==> AtMostOneFocused(projects)
    {
      raised := false;
      if id in projects {
        Refile(projects[id].(focusedTerminals := pids));
        raised := SaveProjects();
      }
    }

    /** The sessions in dictionary order. */
    function Sessions(): (r: seq<ProjectSession>)
      reads this
      requires Valid()
      ensures forall s :: s in r <==> exists id :: id in projects && projects[id] == s
      ensures r == InOrder(projects, order)
    {
      var r := InOrder(projects, order);
      assert forall id :: id in projects ==> projects[id] == r[IndexOf(order, id)];
      r
    }

    /** `get_focused_projects`: exactly the focused sessions. */
    function GetFocusedProjects(): (r: seq<ProjectSession>)
      reads this
      requires Valid()
      ensures forall s :: s in r ==> s.status == Focused && s.projectId in projects && projects[s.projectId] == s
      ensures forall id :: id in projects && projects[id].status == Focused ==> projects[id] in r
      ensures r == Having(Sessions(), IsFocused)
    {
      Having(Sessions(), IsFocused)
    }

    /** `get_active_projects`: exactly the active and the focused sessions. */
    function GetActiveProjects(): (r: seq<ProjectSession>)
      reads this
      requires Valid()
      ensures forall s :: s in r ==> (s.status == Active || s.status == Focused) && s.projectId in projects && projects[s.projectId] == s
      ensures forall id :: id in projects && (projects[id].status == Active || projects[id].status == Focused) ==> projects[id] in r
      ensures r == Having(Sessions(), IsLive)
    {
      Having(Sessions(), IsLive)
    }
  }

  /** The position of a listed key. */
  function IndexOf(order: seq<string>, id: string): (i: nat)
    requires id in order
    ensures i < |order| && order[i] == id
  {
    if order[0] == id then 0 else 1 + IndexOf(order[1..], id)
  }

  // ---------------------------------------------------------------------
  // The agent's routing
  // ---------------------------------------------------------------------

  /**
   * `_correlate_activity_to_project`: the first session in order, archived
   * ones skipped, whose watch directories or root prefix the working
   * directory; none when no session claims it.
   */
  method CorrelateActivityToProject(pm: ProjectManager, workingDir: string) returns (r: Option<string>)
    requires pm.Valid()
    ensures r == FirstClaimant(pm.Sessions(), workingDir)
    ensures r.Some? ==> r.value in pm.projects && Routable(pm.projects[r.value]) && Claims(pm.projects[r.value], workingDir)
    ensures r.None? <==> forall id :: id in pm.projects ==> !(Routable(pm.projects[id]) && Claims(pm.projects[id], workingDir))
  {
    var ss := pm.Sessions();
    var i := 0;
    while i < |ss|
      invariant 0 <= i <= |ss|
      invariant FirstClaimant(ss, workingDir) == FirstClaimant(ss[i..], workingDir)
    {
      var project := ss[i];
      assert ss[i..][1..] == ss[i + 1..];
      if project.status != Archived {
        var k := 0;
        while k < |project.watchDirs|
          invariant 0 <= k <= |project.watchDirs|
          invariant forall j :: 0 <= j < k ==> !StartsWith(workingDir, project.watchDirs[j])
        {
          if StartsWith(workingDir, project.watchDirs[k]) {
            r := Some(project.projectId);
            ClaimantFacts(pm, ss, workingDir);
            return;
          }
          k := k + 1;
        }
        if StartsWith(workingDir, project.rootPath) {
          r := Some(project.projectId);
          ClaimantFacts(pm, ss, workingDir);
          return;
        }
      }
      i := i + 1;
    }
    r := None;
    ClaimantFacts(pm, ss, workingDir);
  }

  /** The claimant found among the sessions is a claiming, routable session, and there is none exactly when no session claims. */
  lemma ClaimantFacts(pm: ProjectManager, ss: seq<ProjectSession>, workingDir: string)
    requires pm.Valid() && ss == pm.Sessions()
    ensures var r := FirstClaimant(ss, workingDir);
      r.Some? ==> r.value in pm.projects && Routable(pm.projects[r.value]) && Claims(pm.projects[r.value], workingDir)
    ensures FirstClaimant(ss, workingDir).None? <==>
      forall id :: id in pm.projects ==> !(Routable(pm.projects[id]) && Claims(pm.projects[id], workingDir))
  {
    FirstClaimantSpec(ss, workingDir);
    var r := FirstClaimant(ss, workingDir);
    if r.Some? {
      var i :| 0 <= i < |ss| && ss[i].projectId == r.value && Routable(ss[i]) && Claims(ss[i], workingDir);
      assert ss[i] in ss;
    }
    if r.None? {
      forall id | id in pm.projects
        ensures !(Routable(pm.projects[id]) && Claims(pm.projects[id], workingDir))
      {
        var p := pm.projects[id];
        assert p in ss;
        var i :| 0 <= i < |ss| && ss[i] == p;
      }
    }
  }

  /** `_is_terminal_focused`: some session lists the terminal among its focused ones. */
  method IsTerminalFocused(pm: ProjectManager, pid: int) returns (b: bool)
    requires pm.Valid()
    ensures b <==> exists id :: id in pm.projects && pid in pm.projects[id].focusedTerminals
  {
    var ss := pm.Sessions();
    for i := 0 to |ss|
      invariant forall j :: 0 <= j < i ==> pid !in ss[j].focusedTerminals
    {
      if pid in ss[i].focusedTerminals {
        assert ss[i] in ss;
        return true;
      }
    }
    forall id | id in pm.projects
      ensures pid !in pm.projects[id].focusedTerminals
    {
      assert pm.projects[id] in ss;
    }
    return false;
  }
}
