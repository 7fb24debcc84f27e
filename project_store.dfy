/** Bookkeeping of the projects directory: the persisted list of hidden project
    ids (hide, restore, purge, and the guard against a corrupted list), the
    merging of project directories that resolve to the same working directory,
    batch deletion counters and the macOS path clean-up. Reading directories and
    session files is not modelled: the projects found on disk are an input, and
    `normalize_path_for_comparison` is a parameter. */
module ProjectStore {
  import opened Wrappers
  import opened Text
  import opened Lists

  // ---------------------------------------------------------------------------
  // Hidden projects
  // ---------------------------------------------------------------------------

  /** The position of the first `id` (`iter().position`). */
  function IndexOf(xs: seq<string>, id: string): (k: nat)
    requires id in xs
    ensures k < |xs| && xs[k] == id && id !in xs[..k]
  {
    if xs[0] == id then 0 else 1 + IndexOf(xs[1..], id)
  }

  /** `Vec::remove(k)`. */
  function RemoveAt(xs: seq<string>, k: nat): (r: seq<string>)
    requires k < |xs|
    ensures |r| == |xs| - 1
    ensures multiset(r) == multiset(xs) - multiset{xs[k]}
  {
    assert xs == xs[..k] + [xs[k]] + xs[k + 1..];
    xs[..k] + xs[k + 1..]
  }

  /** The contents of `hidden_projects.json`. Reads and writes of the file are
      not modelled, and neither are their failures. */
  class HiddenProjects {
    var ids: seq<string>

    /** `load_hidden_projects`: a missing or unparsable file reads as empty. */
    constructor(stored: Option<seq<string>>)
      ensures ids == if stored.Some? then stored.value else []
    {
      ids := if stored.Some? then stored.value else [];
    }

    /** `hide_project`: appends an id not yet hidden; an id already hidden is
        reported as not added and the list stays as it was. */
    method Hide(id: string) returns (added: bool)
      modifies this
      ensures added <==> id !in old(ids)
      ensures ids == if added then old(ids) + [id] else old(ids)
    {
      if id in ids {
        return false;
      }
      ids := ids + [id];
      return true;
    }

    /** `restore_project`: removes the first occurrence of the id, or fails and
        leaves the list alone when the id is not hidden. */
    method Restore(id: string) returns (r: Result<()>)
      modifies this
      ensures r.Ok? <==> id in old(ids)
      ensures r.Ok? ==> ids == RemoveAt(old(ids), IndexOf(old(ids), id))
      ensures r.Err? ==> ids == old(ids)
    {
      var i := 0;
      while i < |ids|
        invariant 0 <= i <= |ids|
        invariant id !in ids[..i]
      {
        if ids[i] == id {
          assert IndexOf(ids, id) == i by {
            IndexOfFirst(ids, id, i);
          }
          ids := ids[..i] + ids[i + 1..];
          return Ok(());
        }
        assert ids[..i + 1] == ids[..i] + [ids[i]];
        i := i + 1;
      }
      assert ids[..i] == ids;
      return Err("Project '" + id + "' is not in the hidden list");
    }

    /** `remove_from_hidden_projects`: drops every entry equal to one of `drop`,
        keeping the others in order; the file is written only if something went. */
    method RemoveFromHidden(drop: seq<string>) returns (saved: bool)
      modifies this
      ensures ids == Without(old(ids), drop)
      ensures saved <==> |ids| != |old(ids)|
    {
      var kept: seq<string> := [];
      var i := 0;
      while i < |ids|
        invariant 0 <= i <= |ids|
        invariant kept == Without(ids[..i], drop)
      {
        assert ids[..i + 1][..i] == ids[..i];
        if ids[i] !in drop {
          kept := kept + [ids[i]];
        }
        i := i + 1;
      }
      assert ids[..i] == ids;
      saved := |kept| != |ids|;
      ids := kept;
    }

    /** The guard in `list_projects`: a list longer than the number of project
        directories is taken as corrupt and cleared; hiding every project is kept. */
    method ApplySafetyCheck(totalProjects: nat) returns (cleared: bool)
      modifies this
      ensures cleared <==> totalProjects > 0 && |old(ids)| > totalProjects
      ensures ids == if cleared then [] else old(ids)
    {
      cleared := totalProjects > 0 && |ids| > totalProjects;
      if cleared {
        ids := [];
      }
    }
  }

  lemma {:induction false} IndexOfFirst(xs: seq<string>, id: string, i: nat)
    requires i < |xs| && xs[i] == id && id !in xs[..i]
    ensures IndexOf(xs, id) == i
    decreases i
  {
    if i > 0 {
      assert xs[1..][..i - 1] == xs[..i][1..];
      IndexOfFirst(xs[1..], id, i - 1);
    }
  }

  /** Restoring an id that was just hidden gives back the list from before. */
  lemma RestoreUndoesHide(ids: seq<string>, id: string)
    requires id !in ids
    ensures RemoveAt(ids + [id], IndexOf(ids + [id], id)) == ids
  {
    IndexOfFirst(ids + [id], id, |ids|);
    assert (ids + [id])[..|ids|] == ids;
  }

  /** Without keeps order: it distributes over concatenation. */
  lemma {:induction false} WithoutAppend(a: seq<string>, b: seq<string>, drop: seq<string>)
    ensures Without(a + b, drop) == Without(a, drop) + Without(b, drop)
    decreases |b|
  {
    if b == [] {
      assert a + b == a;
    } else {
      assert (a + b)[..|a + b| - 1] == a + b[..|b| - 1];
      WithoutAppend(a, b[..|b| - 1], drop);
    }
  }

  /** The list changes length exactly when it held one of the dropped ids. */
  lemma {:induction false} WithoutKeepsLength(xs: seq<string>, drop: seq<string>)
    ensures |Without(xs, drop)| == |xs| <==> forall x :: x in xs ==> x !in drop
    ensures |Without(xs, drop)| == |xs| ==> Without(xs, drop) == xs
    decreases |xs|
  {
    if xs != [] {
      var init := xs[..|xs| - 1];
      WithoutKeepsLength(init, drop);
      assert xs == init + [xs[|xs| - 1]];
      if xs[|xs| - 1] in drop {
        assert |Without(xs, drop)| < |xs|;
      }
    }
  }

  // ---------------------------------------------------------------------------
  // Merging duplicate projects
  // ---------------------------------------------------------------------------

  /** A project directory: its id (directory name), the working directory it was
      resolved to, the session ids found in it and its latest activity time. */
  datatype Project = Project(id: string, path: string, sessions: seq<string>, createdAt: nat)

  predicate HasUpper(s: string) {
    exists i :: 0 <= i < |s| && IsUpperAscii(s[i])
  }

  /** The id-preference rule: a shorter id wins; at equal length (in bytes) an id
      without "--" beats one with it, and one with an upper-case letter beats one
      without any. */
  predicate ShouldUpdateId(newId: string, oldId: string) {
    || Utf8Len(newId) < Utf8Len(oldId)
    || (Utf8Len(newId) == Utf8Len(oldId) && !Contains(newId, "--") && Contains(oldId, "--"))
    || (Utf8Len(newId) == Utf8Len(oldId) && HasUpper(newId) && !HasUpper(oldId))
  }

  /** An id never displaces itself, and a longer id never displaces a shorter one. */
  lemma ShouldUpdateIdSound(newId: string, oldId: string)
    ensures !ShouldUpdateId(oldId, oldId)
    ensures Utf8Len(newId) > Utf8Len(oldId) ==> !ShouldUpdateId(newId, oldId)
    ensures Utf8Len(newId) < Utf8Len(oldId) ==> ShouldUpdateId(newId, oldId)
  {
  }

  /** The sessions loop of a merge: each incoming session not yet present is
      pushed onto the existing list. */
  method AppendNewSessions(existing: seq<string>, incoming: seq<string>) returns (r: seq<string>)
    ensures r == DedupInto(existing, incoming)
  {
    r := existing;
    var i := 0;
    while i < |incoming|
      invariant 0 <= i <= |incoming|
      invariant r == DedupInto(existing, incoming[..i])
    {
      DedupIntoSnoc(existing, incoming[..i], incoming[i]);
      assert incoming[..i + 1] == incoming[..i] + [incoming[i]];
      if incoming[i] !in r {
        r := r + [incoming[i]];
      }
      i := i + 1;
    }
    assert incoming[..i] == incoming;
  }

  /** The entry after `p` is merged into `existing`. */
  function MergeInto(existing: Project, p: Project): Project {
    Project(
      if ShouldUpdateId(p.id, existing.id) then p.id else existing.id,
      existing.path,
      DedupInto(existing.sessions, p.sessions),
      if p.createdAt > existing.createdAt then p.createdAt else existing.createdAt)
  }

  /** The projects whose path normalizes to `key`, in input order. */
  function Members(ps: seq<Project>, norm: string -> string, key: string): seq<Project>
    decreases |ps|
  {
    if ps == [] then []
    else
      var last := ps[|ps| - 1];
      Members(ps[..|ps| - 1], norm, key) + (if norm(last.path) == key then [last] else [])
  }

  /** The normalized paths of the projects, in input order. */
  function Keys(ps: seq<Project>, norm: string -> string): (ks: seq<string>)
    ensures |ks| == |ps|
    ensures forall i :: 0 <= i < |ps| ==> ks[i] == norm(ps[i].path)
  {
    seq(|ps|, i requires 0 <= i < |ps| => norm(ps[i].path))
  }

  /** A group merged left to right, the first project's entry absorbing the rest. */
  function MergeAll(g: seq<Project>): Project
    requires g != []
    decreases |g|
  {
    if |g| == 1 then g[0] else MergeInto(MergeAll(g[..|g| - 1]), g[|g| - 1])
  }

  /** The final `retain` that removes duplicate sessions. */
  function Finalize(p: Project): Project {
    p.(sessions := Dedup(p.sessions))
  }

  function AllSessions(g: seq<Project>): seq<string>
    decreases |g|
  {
    if g == [] then [] else AllSessions(g[..|g| - 1]) + g[|g| - 1].sessions
  }

  /** What `deduplicate_projects` produces before sorting: one merged project per
      normalized path, in the order the paths first appear. */
  function Merged(ps: seq<Project>, norm: string -> string): seq<Project> {
    var keys := Dedup(Keys(ps, norm));
    MembersOfKeys(ps, norm, keys);
    seq(|keys|, j requires 0 <= j < |keys| => Finalize(MergeAll(Members(ps, norm, keys[j]))))
  }

  /** A group holds input projects with the group's normalized path only. */
  lemma {:induction false} MembersMatch(ps: seq<Project>, norm: string -> string, key: string)
    ensures forall p :: p in Members(ps, norm, key) ==> p in ps && norm(p.path) == key
    decreases |ps|
  {
    if ps != [] {
      MembersMatch(ps[..|ps| - 1], norm, key);
    }
  }

  lemma {:induction false} MembersNonEmpty(ps: seq<Project>, norm: string -> string, key: string)
    ensures Members(ps, norm, key) != [] <==> key in Keys(ps, norm)
    decreases |ps|
  {
    if ps != [] {
      var init := ps[..|ps| - 1];
      MembersNonEmpty(init, norm, key);
      assert Keys(ps, norm) == Keys(init, norm) + [norm(ps[|ps| - 1].path)];
    }
  }

  lemma MembersOfKeys(ps: seq<Project>, norm: string -> string, keys: seq<string>)
    requires keys == Dedup(Keys(ps, norm))
    ensures forall k :: k in keys ==> Members(ps, norm, k) != []
  {
    DedupIntoElems([], Keys(ps, norm));
    forall k | k in keys ensures Members(ps, norm, k) != [] {
      assert k in Elems(keys);
      MembersNonEmpty(ps, norm, k);
    }
  }

  /** A merged project keeps the first project's path, the latest activity of the
      group, one of the group's ids, and the group's sessions without repeats. */
  lemma {:induction false} MergeAllSpec(g: seq<Project>)
    requires g != []
    ensures MergeAll(g).path == g[0].path
    ensures forall p :: p in g ==> p.createdAt <= MergeAll(g).createdAt
    ensures exists p :: p in g && p.createdAt == MergeAll(g).createdAt
    ensures exists p :: p in g && p.id == MergeAll(g).id
    ensures Dedup(MergeAll(g).sessions) == Dedup(AllSessions(g))
    decreases |g|
  {
    MergeAllSessions(g);
    if |g| > 1 {
      var init := g[..|g| - 1];
      MergeAllSpec(init);
      assert g == init + [g[|g| - 1]];
      assert init[0] == g[0];
    }
  }

  /** The merged sessions, de-duplicated, are the group's sessions de-duplicated. */
  lemma {:induction false} MergeAllSessions(g: seq<Project>)
    requires g != []
    ensures Dedup(MergeAll(g).sessions) == Dedup(AllSessions(g))
    decreases |g|
  {
    if |g| == 1 {
      assert g[..0] == [];
      assert AllSessions(g) == [] + g[0].sessions == g[0].sessions;
    } else {
      var init := g[..|g| - 1];
      var last := g[|g| - 1];
      MergeAllSessions(init);
      var m := MergeAll(init);
      DedupOfDedupInto(m.sessions, last.sessions);
      DedupIntoAppend([], m.sessions, last.sessions);
      DedupIntoAppend([], AllSessions(init), last.sessions);
    }
  }

  /** The merged list has one project per normalized path, every input path is
      represented, and each entry carries its group's merged data. */
  lemma MergedSpec(ps: seq<Project>, norm: string -> string)
    ensures var out := Merged(ps, norm);
      && (forall i, j :: 0 <= i < j < |out| ==> norm(out[i].path) != norm(out[j].path))
      && (forall p :: p in ps ==> exists q :: q in out && norm(q.path) == norm(p.path))
  {
    var keys := Dedup(Keys(ps, norm));
    var out := Merged(ps, norm);
    MembersOfKeys(ps, norm, keys);
    DedupIntoSpec([], Keys(ps, norm));
    forall j | 0 <= j < |keys| ensures norm(out[j].path) == keys[j] {
      var g := Members(ps, norm, keys[j]);
      MergeAllSpec(g);
      MembersMatch(ps, norm, keys[j]);
      assert g[0] in g;
    }
    forall p | p in ps ensures exists q :: q in out && norm(q.path) == norm(p.path) {
      var i :| 0 <= i < |ps| && ps[i] == p;
      assert norm(p.path) in Elems(keys);
      var j :| 0 <= j < |keys| && keys[j] == norm(p.path);
      assert out[j] in out;
    }
  }

  /** Every merged entry: latest activity of its group, an id from its group and the
      duplicate-free union of the group's sessions. */
  lemma MergedEntrySpec(ps: seq<Project>, norm: string -> string, j: nat)
    requires j < |Merged(ps, norm)|
    ensures var key := Dedup(Keys(ps, norm))[j];
      var g := Members(ps, norm, key);
      var q := Merged(ps, norm)[j];
      && g != []
      && norm(q.path) == key
      && (forall p :: p in g ==> p.createdAt <= q.createdAt)
      && (exists p :: p in g && p.id == q.id)
      && q.sessions == Dedup(AllSessions(g))
  {
    var keys := Dedup(Keys(ps, norm));
    MembersOfKeys(ps, norm, keys);
    var g := Members(ps, norm, keys[j]);
    MergeAllSpec(g);
    MembersMatch(ps, norm, keys[j]);
    assert g[0] in g;
  }

  predicate SortedByActivity(ps: seq<Project>) {
    forall i, j :: 0 <= i < j < |ps| ==> ps[i].createdAt >= ps[j].createdAt
  }

  /** Inserts `p` after every project at least as recent. */
  method InsertByActivity(sorted: seq<Project>, p: Project) returns (r: seq<Project>)
    requires SortedByActivity(sorted)
    ensures SortedByActivity(r)
    ensures multiset(r) == multiset(sorted) + multiset{p}
  {
    var i := 0;
    while i < |sorted| && sorted[i].createdAt >= p.createdAt
      invariant 0 <= i <= |sorted|
      invariant forall j :: 0 <= j < i ==> sorted[j].createdAt >= p.createdAt
    {
      i := i + 1;
    }
    r := sorted[..i] + [p] + sorted[i..];
    assert sorted == sorted[..i] + sorted[i..];
  }

  /** `sort_by(|a, b| b.created_at.cmp(&a.created_at))`. */
  method SortByActivity(ps: seq<Project>) returns (r: seq<Project>)
    ensures SortedByActivity(r)
    ensures multiset(r) == multiset(ps)
  {
    r := [];
    var i := 0;
    while i < |ps|
      invariant 0 <= i <= |ps|
      invariant SortedByActivity(r)
      invariant multiset(r) == multiset(ps[..i])
    {
      r := InsertByActivity(r, ps[i]);
      assert ps[..i + 1] == ps[..i] + [ps[i]];
      i := i + 1;
    }
    assert ps[..i] == ps;
  }

  /** `deduplicate_projects`. The map's iteration order is unspecified; this model
      visits the paths in the order they first appear, which the final sort makes
      unobservable except among projects with equal activity times. */
  method DeduplicateProjects(ps: seq<Project>, norm: string -> string) returns (out: seq<Project>)
    ensures SortedByActivity(out)
    ensures multiset(out) == multiset(Merged(ps, norm))
  {
    var entries: map<string, Project> := map[];
    var order: seq<string> := [];
    var i := 0;
    while i < |ps|
      invariant 0 <= i <= |ps|
      invariant EntriesFor(ps[..i], norm, entries, order)
    {
      entries, order := AddProject(ps, norm, i, entries, order);
      i := i + 1;
    }
    assert ps[..i] == ps;
    var values := CollectMerged(ps, norm, entries, order);
    out := SortByActivity(values);
  }

  /** The loop's invariant after the first `i` projects. */
  ghost predicate EntriesFor(ps: seq<Project>, norm: string -> string,
                             entries: map<string, Project>, order: seq<string>)
  {
    && order == Dedup(Keys(ps, norm))
    && (forall k :: k in entries <==> k in order)
    && (forall k :: k in entries ==>
          Members(ps, norm, k) != [] && entries[k] == MergeAll(Members(ps, norm, k)))
  }

  /** One turn of the loop in `deduplicate_projects`: a project whose path is new
      starts an entry, any other is merged into the entry for its path. */
  method AddProject(ps: seq<Project>, norm: string -> string, i: nat,
                    entries: map<string, Project>, order: seq<string>)
    returns (entries': map<string, Project>, order': seq<string>)
    requires i < |ps|
    requires EntriesFor(ps[..i], norm, entries, order)
    ensures EntriesFor(ps[..i + 1], norm, entries', order')
  {
    var key := norm(ps[i].path);
    DedupStep(ps, norm, i);
    if key in entries {
      var existing := entries[key];
      var sessions := AppendNewSessions(existing.sessions, ps[i].sessions);
      var createdAt := if ps[i].createdAt > existing.createdAt then ps[i].createdAt else existing.createdAt;
      var id := if ShouldUpdateId(ps[i].id, existing.id) then ps[i].id else existing.id;
      entries' := entries[key := Project(id, existing.path, sessions, createdAt)];
      order' := order;
      MergedEntryStep(ps, norm, i, entries, order, entries');
    } else {
      entries' := entries[key := ps[i]];
      order' := order + [key];
      NewEntryStep(ps, norm, i, entries, order);
    }
  }

  lemma MergedEntryStep(ps: seq<Project>, norm: string -> string, i: nat,
                        entries: map<string, Project>, order: seq<string>,
                        entries': map<string, Project>)
    requires i < |ps|
    requires EntriesFor(ps[..i], norm, entries, order)
    requires norm(ps[i].path) in entries
    requires entries' == entries[norm(ps[i].path) := MergeInto(entries[norm(ps[i].path)], ps[i])]
    ensures EntriesFor(ps[..i + 1], norm, entries', order)
  {
    var key := norm(ps[i].path);
    DedupStep(ps, norm, i);
    assert key in order;
    assert Dedup(Keys(ps[..i + 1], norm)) == order;
    assert entries'.Keys == entries.Keys;
    MergedKeyStep(ps, norm, i, entries, order);
    forall k | k in entries' && k != key
      ensures Members(ps[..i + 1], norm, k) != [] && entries'[k] == MergeAll(Members(ps[..i + 1], norm, k))
    {
      assert Members(ps[..i + 1], norm, k) == Members(ps[..i], norm, k);
    }
  }

  /** The entry for the path of project `i` merges it into the group so far. */
  lemma MergedKeyStep(ps: seq<Project>, norm: string -> string, i: nat,
                      entries: map<string, Project>, order: seq<string>)
    requires i < |ps|
    requires EntriesFor(ps[..i], norm, entries, order)
    requires norm(ps[i].path) in entries
    ensures var g := Members(ps[..i + 1], norm, norm(ps[i].path));
      g != [] && MergeAll(g) == MergeInto(entries[norm(ps[i].path)], ps[i])
  {
    var key := norm(ps[i].path);
    DedupStep(ps, norm, i);
    var g := Members(ps[..i + 1], norm, key);
    assert g == Members(ps[..i], norm, key) + [ps[i]];
    assert g[..|g| - 1] == Members(ps[..i], norm, key);
  }

  lemma NewEntryStep(ps: seq<Project>, norm: string -> string, i: nat,
                     entries: map<string, Project>, order: seq<string>)
    requires i < |ps|
    requires EntriesFor(ps[..i], norm, entries, order)
    requires norm(ps[i].path) !in entries
    ensures EntriesFor(ps[..i + 1], norm, entries[norm(ps[i].path) := ps[i]], order + [norm(ps[i].path)])
  {
    var key := norm(ps[i].path);
    var entries' := entries[key := ps[i]];
    DedupStep(ps, norm, i);
    DedupIntoElems([], Keys(ps[..i], norm));
    assert key !in Elems(Keys(ps[..i], norm));
    MembersNonEmpty(ps[..i], norm, key);
    assert Members(ps[..i + 1], norm, key) == [ps[i]];
    forall k | k in entries' && k != key
      ensures Members(ps[..i + 1], norm, k) != [] && entries'[k] == MergeAll(Members(ps[..i + 1], norm, k))
    {
      assert Members(ps[..i + 1], norm, k) == Members(ps[..i], norm, k);
    }
  }

  /** The map's values, finalized, one per normalized path. */
  method CollectMerged(ps: seq<Project>, norm: string -> string,
                       entries: map<string, Project>, order: seq<string>)
    returns (values: seq<Project>)
    requires EntriesFor(ps, norm, entries, order)
    ensures values == Merged(ps, norm)
  {
    values := [];
    var j := 0;
    while j < |order|
      invariant 0 <= j <= |order|
      invariant |values| == j
      invariant forall n :: 0 <= n < j ==> values[n] == Finalize(MergeAll(Members(ps, norm, order[n])))
    {
      values := values + [Finalize(entries[order[j]])];
      j := j + 1;
    }
  }

  /** How one more project changes the keys and the groups. */
  lemma DedupStep(ps: seq<Project>, norm: string -> string, i: nat)
    requires i < |ps|
    ensures Keys(ps[..i + 1], norm) == Keys(ps[..i], norm) + [norm(ps[i].path)]
    ensures forall k :: Members(ps[..i + 1], norm, k) ==
                        Members(ps[..i], norm, k) + (if norm(ps[i].path) == k then [ps[i]] else [])
    ensures Dedup(Keys(ps[..i + 1], norm)) == AddNew(Dedup(Keys(ps[..i], norm)), norm(ps[i].path))
  {
    assert ps[..i + 1][..i] == ps[..i];
    DedupIntoSnoc([], Keys(ps[..i], norm), norm(ps[i].path));
  }

  /** The project directories whose id is not hidden, in directory order. */
  function Unhidden(dirs: seq<Project>, hidden: seq<string>): (r: seq<Project>)
    ensures forall p :: p in r <==> p in dirs && p.id !in hidden
    decreases |dirs|
  {
    if dirs == [] then []
    else
      var last := dirs[|dirs| - 1];
      Unhidden(dirs[..|dirs| - 1], hidden) + (if last.id in hidden then [] else [last])
  }

  /** `list_projects` after the directory scan: the safety check against the
      number of project directories, the hidden filter, then the merge. */
  method ListProjects(store: HiddenProjects, dirs: seq<Project>, norm: string -> string)
    returns (out: seq<Project>)
    modifies store
    ensures store.ids == if |dirs| > 0 && |old(store.ids)| > |dirs| then [] else old(store.ids)
    ensures SortedByActivity(out)
    ensures multiset(out) == multiset(Merged(Unhidden(dirs, store.ids), norm))
  {
    var _ := store.ApplySafetyCheck(|dirs|);
    var visible: seq<Project> := [];
    var i := 0;
    while i < |dirs|
      invariant 0 <= i <= |dirs|
      invariant visible == Unhidden(dirs[..i], store.ids)
    {
      assert dirs[..i + 1][..i] == dirs[..i];
      if dirs[i].id !in store.ids {
        visible := visible + [dirs[i]];
      }
      i := i + 1;
    }
    assert dirs[..i] == dirs;
    out := DeduplicateProjects(visible, norm);
  }

  // ---------------------------------------------------------------------------
  // Batch deletion
  // ---------------------------------------------------------------------------

  /** What `delete_session` reports for one id. */
  datatype DeleteResult = Deleted | NotFound | DeleteFailed(msg: string)

  datatype BatchDeleteOutcome = BatchDeleteOutcome(deletedCount: nat, failedCount: nat, errors: seq<string>)

  /** `delete` is what `delete_session` reports for an id while its session file is
      as it was before the batch; once an earlier id of the batch removed the file,
      the file is gone and the call reports it not found. */
  function Attempt(id: string, removed: set<string>, delete: string -> DeleteResult): DeleteResult {
    if id in removed then NotFound else delete(id)
  }

  /** The ids whose session file the batch has removed after the calls for `ids`. */
  function Removed(ids: seq<string>, delete: string -> DeleteResult): (gone: set<string>)
    ensures gone <= Elems(ids)
    decreases |ids|
  {
    if ids == [] then {}
    else
      var init := ids[..|ids| - 1];
      var id := ids[|ids| - 1];
      assert Elems(ids) == Elems(init) + {id};
      Removed(init, delete) + (if Attempt(id, Removed(init, delete), delete).Deleted? then {id} else {})
  }

  function DeletedCount(ids: seq<string>, delete: string -> DeleteResult): (n: nat)
    ensures n <= |ids|
    decreases |ids|
  {
    if ids == [] then 0
    else
      var init := ids[..|ids| - 1];
      DeletedCount(init, delete)
        + (if Attempt(ids[|ids| - 1], Removed(init, delete), delete).Deleted? then 1 else 0)
  }

  /** Every deletion removes a file no earlier call removed, so no id counts twice. */
  lemma {:induction false} DeletedCountIsRemoved(ids: seq<string>, delete: string -> DeleteResult)
    ensures DeletedCount(ids, delete) == |Removed(ids, delete)|
    ensures DeletedCount(ids, delete) <= |Elems(ids)|
    decreases |ids|
  {
    if ids != [] {
      DeletedCountIsRemoved(ids[..|ids| - 1], delete);
    }
    SubsetCard(Removed(ids, delete), Elems(ids));
  }

  function ErrorFor(id: string, r: DeleteResult): string {
    match r
    case NotFound => "Session file not found for ID: " + id
    case DeleteFailed(e) => "Failed to delete session " + id + ": " + e
    case Deleted => ""
  }

  /** The error messages, one per failed id, in order. */
  function BatchErrors(ids: seq<string>, delete: string -> DeleteResult): (errs: seq<string>)
    ensures |errs| == |ids| - DeletedCount(ids, delete)
    decreases |ids|
  {
    if ids == [] then []
    else
      var id := ids[|ids| - 1];
      var r := Attempt(id, Removed(ids[..|ids| - 1], delete), delete);
      BatchErrors(ids[..|ids| - 1], delete) + (if r.Deleted? then [] else [ErrorFor(id, r)])
  }

  /** An id given twice whose file exists is deleted once and then not found. */
  lemma RepeatedIdNotFound(x: string, delete: string -> DeleteResult)
    requires delete(x) == Deleted
    ensures DeletedCount([x, x], delete) == 1
    ensures BatchErrors([x, x], delete) == ["Session file not found for ID: " + x]
  {
    assert [x, x][..1] == [x];
    assert [x][..0] == [];
    assert Removed([x], delete) == {x};
  }

  /** `delete_sessions_batch`; `delete` stands for `delete_session` and `removed`
      for the session files the loop has deleted so far. Every id is counted once,
      as deleted or as failed, each failure has its message, and no more sessions
      are deleted than there are distinct ids. */
  method DeleteSessionsBatch(ids: seq<string>, delete: string -> DeleteResult)
    returns (o: BatchDeleteOutcome)
    ensures o.deletedCount + o.failedCount == |ids|
    ensures |o.errors| == o.failedCount
    ensures o.deletedCount == DeletedCount(ids, delete)
    ensures o.deletedCount <= |Elems(ids)|
    ensures o.errors == BatchErrors(ids, delete)
  {
    var deleted := 0;
    var failed := 0;
    var errors: seq<string> := [];
    var removed: set<string> := {};
    var i := 0;
    while i < |ids|
      invariant 0 <= i <= |ids|
      invariant deleted + failed == i && |errors| == failed
      invariant removed == Removed(ids[..i], delete)
      invariant deleted == DeletedCount(ids[..i], delete)
      invariant errors == BatchErrors(ids[..i], delete)
    {
      var id := ids[i];
      assert ids[..i + 1][..i] == ids[..i];
      var result := if id in removed then NotFound else delete(id);
      match result {
        case Deleted =>
          deleted := deleted + 1;
          removed := removed + {id};
        case NotFound =>
          failed := failed + 1;
          errors := errors + ["Session file not found for ID: " + id];
        case DeleteFailed(e) =>
          failed := failed + 1;
          errors := errors + ["Failed to delete session " + id + ": " + e];
      }
      i := i + 1;
    }
    assert ids[..i] == ids;
    DeletedCountIsRemoved(ids, delete);
    o := BatchDeleteOutcome(deleted, failed, errors);
  }

  // ---------------------------------------------------------------------------
  // macOS paths
  // ---------------------------------------------------------------------------

  /** `/private/tmp/`, `/private/var/` or `/private/etc/` becomes the path without
      `/private`; then one trailing '/' goes unless the path is "/". */
  function MacosNormalized(path: string): (r: string)
    ensures |r| <= |path|
  {
    var n :=
      if StartsWith(path, "/private/tmp/") then "/tmp/" + path[13..]
      else if StartsWith(path, "/private/var/") then "/var/" + path[13..]
      else if StartsWith(path, "/private/etc/") then "/etc/" + path[13..]
      else path;
    if |n| > 1 && n[|n| - 1] == '/' then n[..|n| - 1] else n
  }

  /** `normalize_macos_path`, which edits a local copy of the string. The byte
      length test `len() > 1` agrees with a character count here because the last
      character is '/' whenever it matters. */
  method NormalizeMacosPath(path: string) returns (normalized: string)
    ensures normalized == MacosNormalized(path)
  {
    normalized := path;
    if StartsWith(normalized, "/private/tmp/") {
      normalized := "/tmp/" + normalized[13..];
    } else if StartsWith(normalized, "/private/var/") {
      normalized := "/var/" + normalized[13..];
    } else if StartsWith(normalized, "/private/etc/") {
      normalized := "/etc/" + normalized[13..];
    }
    if |normalized| > 1 && normalized[|normalized| - 1] == '/' {
      normalized := normalized[..|normalized| - 1];
    }
  }

  /** A path under /private/tmp and the same path under /tmp normalize alike. */
  lemma PrivateTmpIsTmp(rest: string)
    ensures MacosNormalized("/private/tmp/" + rest) == MacosNormalized("/tmp/" + rest)
  {
    var a := "/private/tmp/" + rest;
    var b := "/tmp/" + rest;
    assert StartsWith(a, "/private/tmp/");
    assert a[13..] == rest;
    assert !StartsWith(b, "/private/tmp/") && !StartsWith(b, "/private/var/") && !StartsWith(b, "/private/etc/") by {
      assert b[1] == 't';
    }
  }

  /** The result ends in '/' only when it is the root or the input ended in "//". */
  lemma MacosNormalizedTrailingSlash(path: string)
    requires !EndsWith(path, "//")
    ensures var r := MacosNormalized(path);
      r == "/" || r == [] || r[|r| - 1] != '/'
  {
    var n :=
      if StartsWith(path, "/private/tmp/") then "/tmp/" + path[13..]
      else if StartsWith(path, "/private/var/") then "/var/" + path[13..]
      else if StartsWith(path, "/private/etc/") then "/etc/" + path[13..]
      else path;
    if |n| > 1 && n[|n| - 1] == '/' {
      assert n[|n| - 2] != '/' by {
        if |path| >= 13 && n != path {
          assert n[|n| - 2] == path[|path| - 2];
        } else {
          assert n == path;
          assert path[|path| - 2..] != "//";
        }
      }
    }
  }
}
