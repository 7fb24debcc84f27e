/** Discovery of the `claude` (or another tool's) executable: the two version
    comparators, the ranking of prioritised candidates, case-insensitive candidate
    de-duplication, the PATH merge done at start-up, the platform alias list and
    the `.npmrc` prefix lookup. File-system probes, `--version` subprocesses and
    environment lookups are inputs. */
module ClaudeBinary {
  import opened Wrappers
  import opened Text
  import opened Lists

  // ---------------------------------------------------------------------------
  // Version lists compared with zero padding
  // ---------------------------------------------------------------------------

  /** `parts.get(i).unwrap_or(&0)`. */
  function At(xs: seq<nat>, i: nat): nat {
    if i < |xs| then xs[i] else 0
  }

  function Rest(xs: seq<nat>): seq<nat> {
    if xs == [] then [] else xs[1..]
  }

  function Max(a: nat, b: nat): nat {
    if a < b then b else a
  }

  /** Component-wise comparison where the shorter list reads as padded with zeros. */
  function ComparePadded(a: seq<nat>, b: seq<nat>): Ordering
    decreases |a| + |b|
  {
    if a == [] && b == [] then Equal
    else if At(a, 0) < At(b, 0) then Less
    else if At(a, 0) > At(b, 0) then Greater
    else ComparePadded(Rest(a), Rest(b))
  }

  /** Equal exactly when the padded lists agree everywhere. */
  lemma {:induction false} ComparePaddedEqual(a: seq<nat>, b: seq<nat>)
    ensures ComparePadded(a, b) == Equal <==>
      forall i :: 0 <= i < Max(|a|, |b|) ==> At(a, i) == At(b, i)
    decreases |a| + |b|
  {
    if a == [] && b == [] {
    } else if At(a, 0) != At(b, 0) {
      assert At(a, 0) != At(b, 0);
    } else {
      ComparePaddedEqual(Rest(a), Rest(b));
      if ComparePadded(a, b) == Equal {
        forall i | 0 <= i < Max(|a|, |b|) ensures At(a, i) == At(b, i) {
          if i > 0 {
            assert At(a, i) == At(Rest(a), i - 1) && At(b, i) == At(Rest(b), i - 1);
          }
        }
      } else {
        var i :| 0 <= i < Max(|Rest(a)|, |Rest(b)|) && At(Rest(a), i) != At(Rest(b), i);
        assert At(a, i + 1) == At(Rest(a), i) && At(b, i + 1) == At(Rest(b), i);
      }
    }
  }

  lemma {:induction false} ComparePaddedAntisymmetric(a: seq<nat>, b: seq<nat>)
    ensures ComparePadded(a, b) == ComparePadded(b, a).Reverse()
    decreases |a| + |b|
  {
    if !(a == [] && b == []) && At(a, 0) == At(b, 0) {
      ComparePaddedAntisymmetric(Rest(a), Rest(b));
    }
  }

  lemma {:induction false} ComparePaddedTransitive(a: seq<nat>, b: seq<nat>, c: seq<nat>)
    ensures ComparePadded(a, b) != Greater && ComparePadded(b, c) != Greater ==>
      ComparePadded(a, c) != Greater
    ensures ComparePadded(a, b) == Less && ComparePadded(b, c) != Greater ==>
      ComparePadded(a, c) == Less
    ensures ComparePadded(a, b) != Greater && ComparePadded(b, c) == Less ==>
      ComparePadded(a, c) == Less
    decreases |a| + |b| + |c|
  {
    if !(a == [] && b == [] && c == []) {
      ComparePaddedTransitive(Rest(a), Rest(b), Rest(c));
    }
  }

  /** Appending zero components changes nothing: "22" and "22.0.0" are the same. */
  lemma TrailingZerosIgnored(a: seq<nat>, n: nat)
    ensures ComparePadded(a, a + seq(n, _ => 0)) == Equal
  {
    var b := a + seq(n, _ => 0);
    forall i | 0 <= i < Max(|a|, |b|) ensures At(a, i) == At(b, i) {
      if i >= |a| { assert b[i] == 0; }
    }
    ComparePaddedEqual(a, b);
  }

  function Drop(xs: seq<nat>, i: nat): seq<nat> {
    if i <= |xs| then xs[i..] else []
  }

  lemma DropStep(xs: seq<nat>, i: nat)
    ensures At(Drop(xs, i), 0) == At(xs, i)
    ensures Rest(Drop(xs, i)) == Drop(xs, i + 1)
  {
  }

  /** The `for i in 0..max(len)` loop shared by both comparators. */
  method ComparePaddedLoop(a: seq<nat>, b: seq<nat>) returns (o: Ordering)
    ensures o == ComparePadded(a, b)
  {
    var n := if |a| < |b| then |b| else |a|;
    var i := 0;
    while i < n
      invariant 0 <= i <= n
      invariant ComparePadded(a, b) == ComparePadded(Drop(a, i), Drop(b, i))
    {
      var x := if i < |a| then a[i] else 0;
      var y := if i < |b| then b[i] else 0;
      DropStep(a, i);
      DropStep(b, i);
      if x < y {
        return Less;
      } else if x > y {
        return Greater;
      }
      i := i + 1;
    }
    assert Drop(a, i) == [] && Drop(b, i) == [];
    return Equal;
  }

  // ---------------------------------------------------------------------------
  // Node and CLI version strings
  // ---------------------------------------------------------------------------

  /** `filter_map(|p| p.parse::<u32>().ok())`. */
  function ParsedParts(ps: seq<string>): (r: seq<nat>)
    ensures |r| <= |ps|
  {
    if ps == [] then []
    else
      var rest := ParsedParts(ps[1..]);
      match ParseU32(ps[0])
      case Some(n) => [n] + rest
      case None => rest
  }

  /** `trim_start_matches('v').split('.')` with the unparsable pieces dropped. */
  function NodeVersionParts(s: string): seq<nat> {
    ParsedParts(Split(TrimStartChar(s, 'v'), '.'))
  }

  /** `compare_node_versions`. */
  function NodeVersionOrder(a: string, b: string): Ordering {
    ComparePadded(NodeVersionParts(a), NodeVersionParts(b))
  }

  method CompareNodeVersions(a: string, b: string) returns (o: Ordering)
    ensures o == NodeVersionOrder(a, b)
  {
    o := ComparePaddedLoop(NodeVersionParts(a), NodeVersionParts(b));
  }

  /** Each piece keeps only its leading digits before parsing; an empty or
      overflowing piece is dropped. */
  function LeadingParts(ps: seq<string>): (r: seq<nat>)
    ensures |r| <= |ps|
  {
    if ps == [] then []
    else
      var rest := LeadingParts(ps[1..]);
      match ParseU32(LeadingDigits(ps[0]))
      case Some(n) => [n] + rest
      case None => rest
  }

  function CliVersionParts(s: string): seq<nat> {
    LeadingParts(Split(s, '.'))
  }

  /** `compare_versions`. */
  function VersionOrder(a: string, b: string): Ordering {
    ComparePadded(CliVersionParts(a), CliVersionParts(b))
  }

  method CompareVersions(a: string, b: string) returns (o: Ordering)
    ensures o == VersionOrder(a, b)
  {
    o := ComparePaddedLoop(CliVersionParts(a), CliVersionParts(b));
  }

  lemma NodeVersionOrderTotal(a: string, b: string, c: string)
    ensures NodeVersionOrder(a, a) == Equal
    ensures NodeVersionOrder(a, b) == NodeVersionOrder(b, a).Reverse()
    ensures NodeVersionOrder(a, b) != Greater && NodeVersionOrder(b, c) != Greater ==>
      NodeVersionOrder(a, c) != Greater
  {
    ComparePaddedEqual(NodeVersionParts(a), NodeVersionParts(a));
    ComparePaddedAntisymmetric(NodeVersionParts(a), NodeVersionParts(b));
    ComparePaddedTransitive(NodeVersionParts(a), NodeVersionParts(b), NodeVersionParts(c));
  }

  lemma VersionOrderTotal(a: string, b: string, c: string)
    ensures VersionOrder(a, a) == Equal
    ensures VersionOrder(a, b) == VersionOrder(b, a).Reverse()
    ensures VersionOrder(a, b) != Greater && VersionOrder(b, c) != Greater ==>
      VersionOrder(a, c) != Greater
  {
    ComparePaddedEqual(CliVersionParts(a), CliVersionParts(a));
    ComparePaddedAntisymmetric(CliVersionParts(a), CliVersionParts(b));
    ComparePaddedTransitive(CliVersionParts(a), CliVersionParts(b), CliVersionParts(c));
  }

  lemma ParseSmall()
    ensures ParseU32("0") == Some(0) && ParseU32("1") == Some(1)
    ensures ParseU32("17") == Some(17) && ParseU32("22") == Some(22)
  {
    assert "17"[..1] == "1" && "22"[..1] == "2";
  }

  lemma NodePartsV22()
    ensures NodeVersionParts("v22") == [22]
  {
    assert "v22"[1..] == "22";
    assert TrimStartChar("v22", 'v') == "22";
    SplitOnWhole("22", {'.'});
    ParseSmall();
  }

  lemma NodeParts22()
    ensures NodeVersionParts("22.0.0") == [22, 0, 0]
  {
    assert TrimStartChar("22.0.0", 'v') == "22.0.0";
    SplitThree("22", "0", "0", '.');
    assert "22" + ['.'] + "0" + ['.'] + "0" == "22.0.0";
    ParsedTwentyTwo();
  }

  lemma ParsedTwentyTwo()
    ensures ParsedParts(["22", "0", "0"]) == [22, 0, 0]
  {
    ParseSmall();
    assert ["22", "0", "0"][1..] == ["0", "0"] && ["0", "0"][1..] == ["0"];
  }

  /** A leading "v" and missing trailing components do not matter. */
  lemma NodeV22IsNode22()
    ensures NodeVersionOrder("v22", "22.0.0") == Equal
  {
    NodePartsV22();
    NodeParts22();
    PaddedTwentyTwo();
  }

  lemma PaddedTwentyTwo()
    ensures ComparePadded([22], [22, 0, 0]) == Equal
  {
    assert Rest([22]) == [] && Rest([22, 0, 0]) == [0, 0];
    assert Rest([0, 0]) == [0] && Rest([0]) == [];
    assert ComparePadded([], [0]) == Equal;
  }

  lemma LeadingDigitsBeta()
    ensures LeadingDigits("17-beta") == "17"
  {
    assert "17-beta"[1..] == "7-beta" && "7-beta"[1..] == "-beta";
    assert LeadingDigits("-beta") == "";
  }

  lemma LeadingPartsBetaTail()
    ensures LeadingParts(["17-beta"]) == [17]
  {
    LeadingDigitsBeta();
    ParseSmall();
    assert ["17-beta"][1..] == [];
  }

  lemma LeadingPartsBeta()
    ensures LeadingParts(["1", "0", "17-beta"]) == [1, 0, 17]
  {
    LeadingPartsBetaTail();
    assert LeadingDigits("0") == "0" && LeadingDigits("1") == "1";
    ParseSmall();
    assert ["1", "0", "17-beta"][1..] == ["0", "17-beta"];
    assert ["0", "17-beta"][1..] == ["17-beta"];
  }

  lemma CliPartsBeta()
    ensures CliVersionParts("1.0.17-beta") == [1, 0, 17]
  {
    SplitThree("1", "0", "17-beta", '.');
    assert "1" + ['.'] + "0" + ['.'] + "17-beta" == "1.0.17-beta";
    LeadingPartsBeta();
  }

  lemma LeadingPartsRelease()
    ensures LeadingParts(["1", "0", "17"]) == [1, 0, 17]
  {
    assert "17"[1..] == "7" && "7"[1..] == "";
    assert LeadingDigits("17") == "17";
    assert LeadingDigits("0") == "0" && LeadingDigits("1") == "1";
    ParseSmall();
    assert ["1", "0", "17"][1..] == ["0", "17"];
    assert ["0", "17"][1..] == ["17"];
    assert ["17"][1..] == [];
  }

  lemma CliPartsRelease()
    ensures CliVersionParts("1.0.17") == [1, 0, 17]
  {
    SplitThree("1", "0", "17", '.');
    assert "1" + ['.'] + "0" + ['.'] + "17" == "1.0.17";
    LeadingPartsRelease();
  }

  /** A pre-release suffix is cut off, not ranked. */
  lemma BetaEqualsRelease()
    ensures VersionOrder("1.0.17-beta", "1.0.17") == Equal
  {
    CliPartsBeta();
    CliPartsRelease();
    ComparePaddedEqual([1, 0, 17], [1, 0, 17]);
  }

  // ---------------------------------------------------------------------------
  // Ranking candidates
  // ---------------------------------------------------------------------------

  datatype Installation = Installation(path: string, version: Option<string>, source: string)

  datatype Prioritized = Prioritized(priority: nat, installation: Installation)

  /** The tie-break on versions: newer first, a known version before an unknown one. */
  function VersionRank(a: Option<string>, b: Option<string>): Ordering {
    match (a, b)
    case (Some(v1), Some(v2)) => VersionOrder(v2, v1)
    case (Some(_), None) => Less
    case (None, Some(_)) => Greater
    case (None, None) => Equal
  }

  /** The comparator handed to `sort_by`: priority ascending, then VersionRank. */
  function CandidateOrder(a: Prioritized, b: Prioritized): Ordering {
    if a.priority < b.priority then Less
    else if a.priority > b.priority then Greater
    else VersionRank(a.installation.version, b.installation.version)
  }

  lemma CandidateOrderAntisymmetric(a: Prioritized, b: Prioritized)
    ensures CandidateOrder(a, b) == CandidateOrder(b, a).Reverse()
  {
    var va, vb := a.installation.version, b.installation.version;
    if va.Some? && vb.Some? {
      VersionOrderTotal(vb.value, va.value, va.value);
    }
  }

  lemma CandidateOrderTransitive(a: Prioritized, b: Prioritized, c: Prioritized)
    requires CandidateOrder(a, b) == Less && CandidateOrder(b, c) != Greater
    ensures CandidateOrder(a, c) == Less
  {
    var va, vb, vc := a.installation.version, b.installation.version, c.installation.version;
    if a.priority == b.priority == c.priority && va.Some? && vb.Some? && vc.Some? {
      ComparePaddedTransitive(CliVersionParts(vc.value), CliVersionParts(vb.value),
                              CliVersionParts(va.value));
      ComparePaddedAntisymmetric(CliVersionParts(vc.value), CliVersionParts(vb.value));
      ComparePaddedAntisymmetric(CliVersionParts(vb.value), CliVersionParts(va.value));
      ComparePaddedAntisymmetric(CliVersionParts(vc.value), CliVersionParts(va.value));
    }
  }

  /** What a stable sort puts first: an element nothing beats, with everything
      before it strictly worse. */
  ghost predicate IsFirstBest(xs: seq<Prioritized>, k: int) {
    && 0 <= k < |xs|
    && (forall j :: 0 <= j < |xs| ==> CandidateOrder(xs[j], xs[k]) != Less)
    && (forall j :: 0 <= j < k ==> CandidateOrder(xs[j], xs[k]) == Greater)
  }

  /** A candidate strictly better than the best so far is strictly better than
      every candidate before it. */
  lemma NewBestBeatsPrefix(xs: seq<Prioritized>, i: nat, k: nat)
    requires k < i < |xs|
    requires CandidateOrder(xs[i], xs[k]) == Less
    requires forall j :: 0 <= j < i ==> CandidateOrder(xs[j], xs[k]) != Less
    ensures forall j :: 0 <= j < i ==> CandidateOrder(xs[j], xs[i]) == Greater
  {
    forall j | 0 <= j < i ensures CandidateOrder(xs[j], xs[i]) == Greater {
      CandidateOrderAntisymmetric(xs[j], xs[k]);
      CandidateOrderTransitive(xs[i], xs[k], xs[j]);
      CandidateOrderAntisymmetric(xs[i], xs[j]);
    }
  }

  /** `select_best_with_priority`: the head of the stably sorted list. */
  method SelectBestWithPriority(xs: seq<Prioritized>) returns (best: Option<Installation>)
    ensures best.None? <==> xs == []
    ensures best.Some? ==> exists k :: IsFirstBest(xs, k) && best.value == xs[k].installation
  {
    if xs == [] {
      return None;
    }
    var k := 0;
    var i := 1;
    CandidateOrderAntisymmetric(xs[0], xs[0]);
    while i < |xs|
      invariant 1 <= i <= |xs| && 0 <= k < i
      invariant forall j :: 0 <= j < i ==> CandidateOrder(xs[j], xs[k]) != Less
      invariant forall j :: 0 <= j < k ==> CandidateOrder(xs[j], xs[k]) == Greater
    {
      if CandidateOrder(xs[i], xs[k]) == Less {
        NewBestBeatsPrefix(xs, i, k);
        CandidateOrderAntisymmetric(xs[i], xs[i]);
        k := i;
      }
      i := i + 1;
    }
    assert IsFirstBest(xs, k);
    return Some(xs[k].installation);
  }

  /** The first-best position is unique, so the selection is determined. */
  lemma FirstBestUnique(xs: seq<Prioritized>, k: int, m: int)
    requires IsFirstBest(xs, k) && IsFirstBest(xs, m)
    ensures k == m
  {
    if k < m {
      CandidateOrderAntisymmetric(xs[k], xs[m]);
    } else if m < k {
      CandidateOrderAntisymmetric(xs[m], xs[k]);
    }
  }

  /** The chosen candidate has the lowest priority number present; among those it
      has a version whenever any of them does, and no version there is newer. */
  lemma FirstBestRanks(xs: seq<Prioritized>, k: int)
    requires IsFirstBest(xs, k)
    ensures forall j :: 0 <= j < |xs| ==> xs[k].priority <= xs[j].priority
    ensures forall j :: (0 <= j < |xs| && xs[j].priority == xs[k].priority &&
      xs[j].installation.version.Some?) ==> xs[k].installation.version.Some?
    ensures forall j :: (0 <= j < |xs| && xs[j].priority == xs[k].priority &&
      xs[j].installation.version.Some?) ==>
        VersionOrder(xs[j].installation.version.value, xs[k].installation.version.value) != Greater
  {
    forall j | 0 <= j < |xs| && xs[j].priority == xs[k].priority &&
      xs[j].installation.version.Some?
      ensures VersionOrder(xs[j].installation.version.value, xs[k].installation.version.value) != Greater
    {
      assert CandidateOrder(xs[j], xs[k]) != Less;
      var v, w := xs[k].installation.version.value, xs[j].installation.version.value;
      VersionOrderTotal(w, v, v);
    }
  }

  // ---------------------------------------------------------------------------
  // Candidate collection
  // ---------------------------------------------------------------------------

  /** `path.contains('\\') || path.contains('/')`. */
  predicate LooksLikePath(path: string) {
    '\\' in path || '/' in path
  }

  /** The candidate list and the lower-cased paths already offered. */
  class CandidateCollector {
    var list: seq<Prioritized>
    var seen: set<string>

    /** Every listed path was seen, and no two listed paths differ only in case. */
    ghost predicate Valid()
      reads this
    {
      && (forall i :: 0 <= i < |list| ==> ToLowerAscii(list[i].installation.path) in seen)
      && (forall i, j :: 0 <= i < j < |list| ==>
            ToLowerAscii(list[i].installation.path) != ToLowerAscii(list[j].installation.path))
    }

    constructor()
      ensures list == [] && seen == {} && Valid()
    {
      list := [];
      seen := {};
    }

    /** `push_candidate`; `pathExists` is the file-system check and `version` the
        result of the `--version` probe. The path is marked seen before either. */
    method PushCandidate(path: string, source: string, priority: nat,
                         pathExists: bool, version: Option<string>)
      requires Valid()
      modifies this
      ensures Valid()
      ensures seen == old(seen) + {ToLowerAscii(path)}
      ensures ToLowerAscii(path) in old(seen) ==> list == old(list)
      ensures list == old(list) || list == old(list) + [Prioritized(priority, Installation(path, version, source))]
      ensures list != old(list) <==>
        && ToLowerAscii(path) !in old(seen)
        && (LooksLikePath(path) ==> pathExists)
        && (!LooksLikePath(path) ==> version.Some?)
    {
      var normalized := ToLowerAscii(path);
      if normalized in seen {
        return;
      }
      seen := seen + {normalized};
      var looksLikePath := '\\' in path || '/' in path;
      if looksLikePath && !pathExists {
        return;
      }
      if !looksLikePath && version.None? {
        return;
      }
      list := list + [Prioritized(priority, Installation(path, version, source))];
    }
  }

  // ---------------------------------------------------------------------------
  // PATH merge at start-up
  // ---------------------------------------------------------------------------

  /** The `!p.is_empty()` filter. */
  function NonEmpty(xs: seq<string>): (r: seq<string>)
    ensures forall p :: p in r ==> p != ""
    decreases |xs|
  {
    if xs == [] then []
    else NonEmpty(xs[..|xs| - 1]) + (if xs[|xs| - 1] != "" then [xs[|xs| - 1]] else [])
  }

  /** The entries `init_shell_environment` collects: NVM paths, the login shell's
      PATH, the fallback paths, then the inherited PATH, first occurrence kept.
      `nvm` and `fallback` are empty when the home directory is unknown;
      `shellPath` is None when the shell could not be asked. */
  function MergedEntries(nvm: seq<string>, shellPath: Option<string>,
                         fallback: seq<string>, currentPath: string): seq<string> {
    var shell := if shellPath.Some? then NonEmpty(Split(shellPath.value, ':')) else [];
    DedupInto([], nvm + shell + fallback + NonEmpty(Split(currentPath, ':')))
  }

  /** The four sources keep their order: each stage's list is a prefix of the next. */
  lemma MergedEntriesInStages(nvm: seq<string>, shellPath: Option<string>,
                              fallback: seq<string>, currentPath: string)
    ensures var shell := if shellPath.Some? then NonEmpty(Split(shellPath.value, ':')) else [];
      MergedEntries(nvm, shellPath, fallback, currentPath) ==
        DedupInto(DedupInto(DedupInto(DedupInto([], nvm), shell), fallback),
                  NonEmpty(Split(currentPath, ':')))
  {
    var shell := if shellPath.Some? then NonEmpty(Split(shellPath.value, ':')) else [];
    var cur := NonEmpty(Split(currentPath, ':'));
    DedupIntoAppend([], nvm + shell + fallback, cur);
    DedupIntoAppend([], nvm + shell, fallback);
    DedupIntoAppend([], nvm, shell);
  }

  lemma {:induction false} DedupFour(a: seq<string>, b: seq<string>, c: seq<string>, d: seq<string>)
    requires "" !in b && "" !in d
    ensures var r := DedupInto([], a + b + c + d);
      && NoDup(r)
      && (forall p :: p in a || p in c || p in d ==> p in r)
      && ("" !in a && "" !in c ==> "" !in r)
  {
    var all := a + b + c + d;
    DedupIntoSpec([], all);
    var r := DedupInto([], all);
    forall p | p in a || p in c || p in d ensures p in r {
      assert p in Elems(all);
      assert p in Elems(r);
    }
    if "" !in a && "" !in c {
      assert "" !in Elems(all);
      assert "" !in Elems(r);
    }
  }

  /** The merged list has no duplicate, holds every offered entry, and has no empty
      entry unless an NVM or fallback path was empty. */
  lemma MergedEntriesSpec(nvm: seq<string>, shellPath: Option<string>,
                          fallback: seq<string>, currentPath: string)
    ensures var r := MergedEntries(nvm, shellPath, fallback, currentPath);
      && NoDup(r)
      && (forall p :: p in nvm || p in fallback ==> p in r)
      && (forall p :: p in NonEmpty(Split(currentPath, ':')) ==> p in r)
      && ("" !in nvm && "" !in fallback ==> "" !in r)
  {
    var shell := if shellPath.Some? then NonEmpty(Split(shellPath.value, ':')) else [];
    DedupFour(nvm, shell, fallback, NonEmpty(Split(currentPath, ':')));
  }

  /** The items a source contributes: all of them, or only the non-empty ones. */
  function Offered(items: seq<string>, skipEmpty: bool): seq<string> {
    if skipEmpty then NonEmpty(items) else items
  }

  lemma OfferedStep(items: seq<string>, i: nat, skipEmpty: bool)
    requires i < |items|
    ensures Offered(items[..i + 1], skipEmpty) ==
      Offered(items[..i], skipEmpty) + (if skipEmpty && items[i] == "" then [] else [items[i]])
  {
    assert items[..i + 1][..i] == items[..i];
  }

  /** One more item either is skipped or is offered to AddNew. */
  lemma PushStep(finalPaths: seq<string>, items: seq<string>, i: nat, skipEmpty: bool)
    requires i < |items|
    ensures DedupInto(finalPaths, Offered(items[..i + 1], skipEmpty)) ==
      if skipEmpty && items[i] == "" then DedupInto(finalPaths, Offered(items[..i], skipEmpty))
      else AddNew(DedupInto(finalPaths, Offered(items[..i], skipEmpty)), items[i])
  {
    OfferedStep(items, i, skipEmpty);
    if skipEmpty && items[i] == "" {
      assert Offered(items[..i], skipEmpty) + [] == Offered(items[..i], skipEmpty);
    } else {
      DedupIntoSnoc(finalPaths, Offered(items[..i], skipEmpty), items[i]);
    }
  }

  /** The loop body run over one source. */
  method PushUnseen(seen: set<string>, finalPaths: seq<string>, items: seq<string>, skipEmpty: bool)
    returns (seen': set<string>, finalPaths': seq<string>)
    requires seen == Elems(finalPaths)
    ensures finalPaths' == DedupInto(finalPaths, Offered(items, skipEmpty))
    ensures seen' == Elems(finalPaths')
  {
    seen', finalPaths' := seen, finalPaths;
    var i := 0;
    while i < |items|
      invariant 0 <= i <= |items|
      invariant finalPaths' == DedupInto(finalPaths, Offered(items[..i], skipEmpty))
      invariant seen' == Elems(finalPaths')
    {
      var p := items[i];
      PushStep(finalPaths, items, i, skipEmpty);
      if !(skipEmpty && p == "") {
        AddNewElems(finalPaths', p);
        if p !in seen' {
          seen' := seen' + {p};
          finalPaths' := finalPaths' + [p];
        }
      }
      i := i + 1;
    }
    assert items[..i] == items;
  }

  /** The PATH after `init_shell_environment`: the merged entries joined with ':',
      or the inherited PATH untouched when nothing was collected. */
  method InitShellPath(nvm: seq<string>, shellPath: Option<string>,
                       fallback: seq<string>, currentPath: string) returns (path: string)
    ensures var e := MergedEntries(nvm, shellPath, fallback, currentPath);
      path == if e == [] then currentPath else Join(e, ":")
  {
    var seen: set<string> := {};
    var finalPaths: seq<string> := [];
    seen, finalPaths := PushUnseen(seen, finalPaths, nvm, false);
    if shellPath.Some? {
      seen, finalPaths := PushUnseen(seen, finalPaths, Split(shellPath.value, ':'), true);
    } else {
      assert DedupInto(finalPaths, []) == finalPaths;
    }
    seen, finalPaths := PushUnseen(seen, finalPaths, fallback, false);
    seen, finalPaths := PushUnseen(seen, finalPaths, Split(currentPath, ':'), true);
    MergedEntriesInStages(nvm, shellPath, fallback, currentPath);
    if finalPaths != [] {
      path := Join(finalPaths, ":");
    } else {
      path := currentPath;
    }
  }

  // ---------------------------------------------------------------------------
  // Aliases, source preference, .npmrc
  // ---------------------------------------------------------------------------

  /** `get_tool_aliases`: Windows tries the four script/executable extensions
      before the bare name; elsewhere only the bare name. */
  function ToolAliases(tool: string, os: string): (r: seq<string>)
    ensures |r| >= 1 && Last(r) == tool
    ensures os != "windows" ==> r == [tool]
    ensures os == "windows" ==> (|r| == 5 &&
      forall i :: 0 <= i < 4 ==> r[i] == tool + [".exe", ".cmd", ".bat", ".ps1"][i])
    ensures forall i, j :: 0 <= i < j < |r| ==> r[i] != r[j]
  {
    if os == "windows" then
      var r := [tool + ".exe", tool + ".cmd", tool + ".bat", tool + ".ps1", tool];
      assert forall i :: 0 <= i < 4 ==> |r[i]| == |tool| + 4 && r[i][|tool|..] == [".exe", ".cmd", ".bat", ".ps1"][i];
      r
    else
      [tool]
  }

  const KnownSources: set<string> :=
    {"where", "homebrew", "system", "local-bin", "claude-local", "npm-global",
     "yarn", "yarn-global", "bun", "node-modules", "home-bin", "PATH"}

  /** `source_preference`: lower is better; every "nvm…" source ranks 4. */
  function SourcePreference(source: string): (r: nat)
    ensures 1 <= r <= 13
  {
    if source == "where" then 1
    else if source == "homebrew" then 2
    else if source == "system" then 3
    else if StartsWith(source, "nvm") then 4
    else if source == "local-bin" then 5
    else if source == "claude-local" then 6
    else if source == "npm-global" then 7
    else if source == "yarn" || source == "yarn-global" then 8
    else if source == "bun" then 9
    else if source == "node-modules" then 10
    else if source == "home-bin" then 11
    else if source == "PATH" then 12
    else 13
  }

  lemma KnownSourcesAreNotNvm()
    ensures forall k :: k in KnownSources ==> !StartsWith(k, "nvm")
  {
    forall k | k in KnownSources ensures !StartsWith(k, "nvm") {
      assert |k| >= 3 ==> k[0] != 'n' || k[1] != 'v';
    }
  }

  /** Every "nvm…" source ranks 4, the two yarn sources share 8, and exactly the
      unrecognised sources rank last. */
  lemma SourcePreferenceRanks(source: string)
    ensures StartsWith(source, "nvm") ==> SourcePreference(source) == 4
    ensures source == "yarn" || source == "yarn-global" ==> SourcePreference(source) == 8
    ensures SourcePreference(source) == 13 <==> source !in KnownSources && !StartsWith(source, "nvm")
  {
    KnownSourcesAreNotNvm();
  }

  predicate IsPrefixLine(t: string) {
    StartsWith(t, "prefix=") || StartsWith(t, "prefix =")
  }

  /** `~/x` becomes `home/x` and `~` becomes `home`. */
  function ExpandTilde(v: string, home: string): (r: string)
    ensures StartsWith(v, "~/") ==> r == home + v[1..] && StartsWith(r, home + "/")
    ensures v == "~" ==> r == home
    ensures !StartsWith(v, "~/") && v != "~" ==> r == v
  {
    if StartsWith(v, "~/") then home + v[1..]
    else if v == "~" then home
    else v
  }

  /** The value of a trimmed `prefix` line: the piece after the first '=', trimmed,
      unquoted, tilde-expanded; nothing when there is no such piece. */
  function PrefixValue(t: string, home: string): Option<string> {
    var parts := Split(t, '=');
    if |parts| < 2 then None
    else Some(ExpandTilde(TrimChar(TrimChar(Trim(parts[1]), '"'), '\''), home))
  }

  /** The value from the first prefix line that yields one. */
  function FirstPrefix(lines: seq<string>, home: string): Option<string> {
    if lines == [] then None
    else
      var t := Trim(lines[0]);
      if IsPrefixLine(t) && PrefixValue(t, home).Some? then PrefixValue(t, home)
      else FirstPrefix(lines[1..], home)
  }

  /** `read_npmrc_prefix`; `content` is None when the file cannot be read. */
  method ReadNpmrcPrefix(content: Option<string>, home: string) returns (r: Option<string>)
    ensures content.None? ==> r.None?
    ensures content.Some? ==> r == FirstPrefix(Lines(content.value), home)
  {
    if content.None? {
      return None;
    }
    var lines := Lines(content.value);
    var i := 0;
    while i < |lines|
      invariant 0 <= i <= |lines|
      invariant FirstPrefix(lines, home) == FirstPrefix(lines[i..], home)
    {
      var line := Trim(lines[i]);
      if StartsWith(line, "prefix=") || StartsWith(line, "prefix =") {
        var prefix := PrefixValue(line, home);
        if prefix.Some? {
          return prefix;
        }
      }
      assert lines[i..][1..] == lines[i + 1..];
      i := i + 1;
    }
    return None;
  }

  /** A prefix line always has a value, so the first prefix line decides. */
  lemma {:induction false} FirstPrefixLineWins(lines: seq<string>, home: string, k: nat)
    requires k < |lines| && IsPrefixLine(Trim(lines[k]))
    requires forall j :: 0 <= j < k ==> !IsPrefixLine(Trim(lines[j]))
    ensures FirstPrefix(lines, home) == PrefixValue(Trim(lines[k]), home)
    ensures FirstPrefix(lines, home).Some?
    decreases k
  {
    var t := Trim(lines[k]);
    assert t[6] == '=' || t[7] == '=';
    if t[6] == '=' {
      SplitOnSeparated(t, {'='}, 6);
    } else {
      SplitOnSeparated(t, {'='}, 7);
    }
    if k > 0 {
      FirstPrefixLineWins(lines[1..], home, k - 1);
    }
  }
}
