/**
 * The part of `ProjectKnowledgeAgent` in `rag_agent.py` that routes a
 * changed file to its project: the first active project one of whose watch
 * directories is a string prefix of the file's absolute path. Path
 * resolution (`os.path.abspath`) is the abstract function `abspath`.
 */
module RagAgent {
  import opened Wrappers
  import opened Strings
  import opened ProjectStore

  /** Some watch directory of `p`, made absolute, is a prefix of `absPath`. */
  predicate Watches(p: ProjectConfig, absPath: string, abspath: string -> string) {
    exists k :: 0 <= k < |p.watchDirs| && StartsWith(absPath, abspath(p.watchDirs[k]))
  }

  /** The id of the first project of `ps` that watches `absPath`. */
  function FirstOwner(ps: seq<ProjectConfig>, absPath: string, abspath: string -> string): (r: Option<string>)
    ensures r.Some? ==> exists p :: p in ps && p.projectId == r.value && Watches(p, absPath, abspath)
    decreases |ps|
  {
    if |ps| == 0 then None
    else if Watches(ps[0], absPath, abspath) then Some(ps[0].projectId)
    else FirstOwner(ps[1..], absPath, abspath)
  }

  /** `FirstOwner` names the first watching project, and is none exactly when no project watches the path. */
  lemma {:induction false} FirstOwnerSpec(ps: seq<ProjectConfig>, absPath: string, abspath: string -> string)
    ensures var r := FirstOwner(ps, absPath, abspath);
      r.None? <==> forall i :: 0 <= i < |ps| ==> !Watches(ps[i], absPath, abspath)
    ensures var r := FirstOwner(ps, absPath, abspath);
      r.Some? ==> exists i :: (0 <= i < |ps| && ps[i].projectId == r.value && Watches(ps[i], absPath, abspath)
                               && forall j :: 0 <= j < i ==> !Watches(ps[j], absPath, abspath))
    decreases |ps|
  {
    if |ps| > 0 && !Watches(ps[0], absPath, abspath) {
      var rest := ps[1..];
      FirstOwnerSpec(rest, absPath, abspath);
      assert forall i :: 1 <= i < |ps| ==> ps[i] == rest[i - 1];
      var r := FirstOwner(rest, absPath, abspath);
      if r.Some? {
        var i :| 0 <= i < |rest| && rest[i].projectId == r.value && Watches(rest[i], absPath, abspath)
          && forall j :: 0 <= j < i ==> !Watches(rest[j], absPath, abspath);
        assert ps[i + 1] == rest[i];
        assert forall j :: 0 <= j < i + 1 ==> !Watches(ps[j], absPath, abspath) by {
          forall j | 0 <= j < i + 1
            ensures !Watches(ps[j], absPath, abspath)
          {
            if j > 0 {
              assert ps[j] == rest[j - 1];
            }
          }
        }
      }
    }
  }

  /** The inner loop of `_find_project_for_file`: whether `p` watches `absPath`. */
  method WatchesPath(p: ProjectConfig, absPath: string, abspath: string -> string) returns (b: bool)
    ensures b <==> Watches(p, absPath, abspath)
  {
    var k := 0;
    while k < |p.watchDirs|
      invariant 0 <= k <= |p.watchDirs|
      invariant forall j :: 0 <= j < k ==> !StartsWith(absPath, abspath(p.watchDirs[j]))
    {
      if StartsWith(absPath, abspath(p.watchDirs[k])) {
        return true;
      }
      k := k + 1;
    }
    return false;
  }

  /**
   * `_find_project_for_file`: the id of the first active project, in the
   * manager's order, that watches the file's absolute path; none when no
   * active project does.
   */
  method FindProjectForFile(pm: ProjectManager, filePath: string, abspath: string -> string) returns (r: Option<string>)
    requires pm.Valid()
    ensures r == FirstOwner(pm.GetActiveProjects(), abspath(filePath), abspath)
    ensures r.Some? ==>
      r.value in pm.projects && pm.projects[r.value].status == Active
      && Watches(pm.projects[r.value], abspath(filePath), abspath)
    ensures r.None? <==>
      forall id :: id in pm.projects && pm.projects[id].status == Active ==> !Watches(pm.projects[id], abspath(filePath), abspath)
  {
    var absPath := abspath(filePath);
    var active := pm.GetActiveProjects();
    var i := 0;
    while i < |active|
      invariant 0 <= i <= |active|
      invariant FirstOwner(active, absPath, abspath) == FirstOwner(active[i..], absPath, abspath)
    {
      var b := WatchesPath(active[i], absPath, abspath);
      assert active[i..][1..] == active[i + 1..];
      if b {
        r := Some(active[i].projectId);
        OwnerIsActive(pm, active, absPath, abspath);
        return;
      }
      i := i + 1;
    }
    r := None;
    OwnerIsActive(pm, active, absPath, abspath);
  }

  /** The owner found among the active projects is an active, watching record, and there is none exactly when no active record watches. */
  lemma OwnerIsActive(pm: ProjectManager, active: seq<ProjectConfig>, absPath: string, abspath: string -> string)
    requires pm.Valid() && active == pm.GetActiveProjects()
    ensures var r := FirstOwner(active, absPath, abspath);
      r.Some? ==>
        r.value in pm.projects && pm.projects[r.value].status == Active
        && Watches(pm.projects[r.value], absPath, abspath)
    ensures FirstOwner(active, absPath, abspath).None? <==>
      forall id :: id in pm.projects && pm.projects[id].status == Active ==> !Watches(pm.projects[id], absPath, abspath)
  {
    FirstOwnerSpec(active, absPath, abspath);
    var r := FirstOwner(active, absPath, abspath);
    if r.Some? {
      var i :| 0 <= i < |active| && active[i].projectId == r.value && Watches(active[i], absPath, abspath);
      assert active[i] in active;
    }
    if r.None? {
      forall id | id in pm.projects && pm.projects[id].status == Active
        ensures !Watches(pm.projects[id], absPath, abspath)
      {
        var p := pm.projects[id];
        assert p in active;
        var i :| 0 <= i < |active| && active[i] == p;
      }
    }
  }
}
