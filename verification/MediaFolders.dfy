/**
 * The media library's folder tree: createFolder, moveFolder and deleteFolder
 * of src/media/media.service.ts, over the map from each folder to its parent.
 */
module MediaFolders {
  import opened Common

  type Folder = string

  type Parents = map<Folder, Option<Folder>>

  datatype Library = Library(parents: Parents, assets: map<string, Option<Folder>>)

  datatype FolderError = FolderNotFound | ParentNotFound | TargetNotFound | IntoItself | IntoOwnSubfolder

  /** A dangling folder has no known parent. */
  function ParentOf(p: Parents, f: Folder): Option<Folder> {
    if f in p then p[f] else None
  }

  // ── Walking up ─────────────────────────────────────────────────────────

  /** The n-th folder on the way up, on any data. */
  function Up(p: Parents, f: Folder, n: nat): Option<Folder> {
    if n == 0 then Some(f)
    else
      var below := Up(p, f, n - 1);
      if below.None? then None else ParentOf(p, below.value)
  }

  /** `f` lies in the subtree of `root`: root is f or above it. */
  ghost predicate InSubtree(p: Parents, root: Folder, f: Folder) {
    exists n: nat :: Up(p, f, n) == Some(root)
  }

  /** A folder's ancestor chain: itself first, a root last. */
  predicate IsChain(p: Parents, s: seq<Folder>) {
    && s != [] && s[0] in p
    && if |s| == 1 then p[s[0]].None? else p[s[0]] == Some(s[1]) && IsChain(p, s[1..])
  }

  ghost predicate Rooted(p: Parents, f: Folder) {
    exists s :: IsChain(p, s) && s[0] == f
  }

  /** Every folder reaches the root: no cycle, no missing parent. */
  ghost predicate Forest(p: Parents) {
    forall f :: f in p ==> Rooted(p, f)
  }

  lemma {:induction false} ChainIsUnique(p: Parents, s: seq<Folder>, t: seq<Folder>)
    requires IsChain(p, s) && IsChain(p, t) && s[0] == t[0]
    ensures s == t
  {
    if |s| > 1 {
      ChainIsUnique(p, s[1..], t[1..]);
      assert s == [s[0]] + s[1..] && t == [t[0]] + t[1..];
    }
  }

  lemma {:induction false} ChainSuffix(p: Parents, s: seq<Folder>, i: nat)
    requires IsChain(p, s) && i < |s|
    ensures IsChain(p, s[i..]) && s[i] in p
    ensures p[s[i]] == if i + 1 < |s| then Some(s[i + 1]) else None
  {
    if i > 0 {
      ChainSuffix(p, s[1..], i - 1);
      assert s[1..][i - 1..] == s[i..];
    } else {
      assert s[0..] == s;
    }
  }

  /** A chain never repeats a folder. */
  lemma ChainHasNoRepeats(p: Parents, s: seq<Folder>, i: nat, j: nat)
    requires IsChain(p, s) && i < |s| && j < |s| && s[i] == s[j]
    ensures i == j
  {
    ChainSuffix(p, s, i);
    ChainSuffix(p, s, j);
    ChainIsUnique(p, s[i..], s[j..]);
  }

  lemma {:induction false} UpFollowsChain(p: Parents, s: seq<Folder>, n: nat)
    requires IsChain(p, s)
    ensures Up(p, s[0], n) == if n < |s| then Some(s[n]) else None
  {
    if n > 0 {
      UpFollowsChain(p, s, n - 1);
      if n - 1 < |s| { ChainSuffix(p, s, n - 1); }
    }
  }

  /** On a rooted folder, lying in a subtree is being on the chain. */
  lemma SubtreeIsOnChain(p: Parents, s: seq<Folder>, root: Folder)
    requires IsChain(p, s)
    ensures InSubtree(p, root, s[0]) <==> root in s
  {
    if root in s {
      var n :| 0 <= n < |s| && s[n] == root;
      UpFollowsChain(p, s, n);
    }
    if InSubtree(p, root, s[0]) {
      var n: nat :| Up(p, s[0], n) == Some(root);
      UpFollowsChain(p, s, n);
    }
  }

  // ── The three operations ───────────────────────────────────────────────

  function Created(l: Library, id: Folder, parent: Option<Folder>): Result<Library, FolderError> {
    if parent.Some? && parent.value !in l.parents then Err(ParentNotFound)
    else Ok(l.(parents := l.parents[id := parent]))
  }

  ghost function Moved(l: Library, id: Folder, parent: Option<Folder>): Result<Library, FolderError> {
    if id !in l.parents then Err(FolderNotFound)
    else if parent == Some(id) then Err(IntoItself)
    else if parent.Some? && parent.value !in l.parents then Err(TargetNotFound)
    else if parent.Some? && InSubtree(l.parents, id, parent.value) then Err(IntoOwnSubfolder)
    else Ok(l.(parents := l.parents[id := parent]))
  }

  /** Assets of a folder move to its parent. */
  function AssetsLifted(l: Library, id: Folder): Library
    requires id in l.parents
  {
    l.(assets := map a | a in l.assets :: if l.assets[a] == Some(id) then l.parents[id] else l.assets[a])
  }

  /** So do its subfolders. */
  function SubfoldersLifted(l: Library, id: Folder): Library
    requires id in l.parents
  {
    l.(parents := map f | f in l.parents :: if l.parents[f] == Some(id) then l.parents[id] else l.parents[f])
  }

  function Deleted(l: Library, id: Folder): Result<Library, FolderError> {
    if id !in l.parents then Err(FolderNotFound)
    else
      var lifted := SubfoldersLifted(AssetsLifted(l, id), id);
      Ok(lifted.(parents := lifted.parents - {id}))
  }

  class MediaService {
    var parents: Parents
    var assets: map<string, Option<Folder>>

    function View(): Library
      reads this
    {
      Library(parents, assets)
    }

    constructor ()
      ensures View() == Library(map[], map[])
    {
      parents, assets := map[], map[];
    }

    method CreateFolder(id: Folder, parent: Option<Folder>) returns (error: Option<FolderError>)
      modifies this`parents
      ensures match Created(old(View()), id, parent)
              case Ok(l) => error.None? && View() == l
              case Err(e) => error == Some(e) && View() == old(View())
    {
      if parent.Some? && parent.value !in parents { return Some(ParentNotFound); }
      parents := parents[id := parent];
      return None;
    }

    /**
     * The walk up from the target. It decides membership in the moved
     * folder's subtree on any data, and ends even when the data has a cycle.
     */
    method WalkFinds(id: Folder, target: Folder) returns (found: bool)
      ensures found <==> InSubtree(parents, id, target)
    {
      var seen: set<Folder> := {};
      var cursor := Some(target);
      ghost var steps := 0;
      while cursor.Some?
        invariant Up(parents, target, steps) == cursor
        invariant id !in seen && (target in seen || cursor == Some(target))
        invariant forall f :: f in seen ==> var up := ParentOf(parents, f); up.None? || up.value in seen || up == cursor
        decreases |parents.Keys - seen|, cursor.Some?, if cursor.Some? && cursor.value in parents then 1 else 0
      {
        if cursor.value == id { return true; }
        if cursor.value in seen { break; }
        if cursor.value in parents {
          SeenShrinks(parents.Keys, seen, cursor.value);
        } else {
          assert parents.Keys - (seen + {cursor.value}) == parents.Keys - seen;
        }
        seen := seen + {cursor.value};
        cursor := ParentOf(parents, cursor.value);
        steps := steps + 1;
      }
      forall n: nat ensures Up(parents, target, n) != Some(id) {
        ClosedSetHoldsWalk(parents, seen, target, n);
      }
      return false;
    }

    method MoveFolder(id: Folder, parent: Option<Folder>) returns (error: Option<FolderError>)
      modifies this`parents
      ensures match Moved(old(View()), id, parent)
              case Ok(l) => error.None? && View() == l
              case Err(e) => error == Some(e) && View() == old(View())
    {
      if id !in parents { return Some(FolderNotFound); }
      if parent == Some(id) { return Some(IntoItself); }
      if parent.Some? {
        if parent.value !in parents { return Some(TargetNotFound); }
        var found := WalkFinds(id, parent.value);
        if found { return Some(IntoOwnSubfolder); }
      }
      if parents[id] == parent {
        assert parents[id := parent] == parents;
        return None;
      }
      parents := parents[id := parent];
      return None;
    }

    method DeleteFolder(id: Folder) returns (error: Option<FolderError>)
      modifies this
      ensures match Deleted(old(View()), id)
              case Ok(l) => error.None? && View() == l
              case Err(e) => error == Some(e) && View() == old(View())
    {
      if id !in parents { return Some(FolderNotFound); }
      var up := parents[id];
      assets := map a | a in assets :: if assets[a] == Some(id) then up else assets[a];
      parents := map f | f in parents :: if parents[f] == Some(id) then up else parents[f];
      parents := parents - {id};
      return None;
    }
  }

  lemma SeenShrinks(all: set<Folder>, seen: set<Folder>, f: Folder)
    requires f in all && f !in seen
    ensures |all - (seen + {f})| < |all - seen|
  {
    assert all - seen == (all - (seen + {f})) + {f};
  }

  /** A set closed under parents holds every folder on the way up from its members. */
  lemma {:induction false} ClosedSetHoldsWalk(p: Parents, seen: set<Folder>, f: Folder, n: nat)
    requires f in seen
    requires forall g :: g in seen ==> var up := ParentOf(p, g); up.None? || up.value in seen
    ensures Up(p, f, n).Some? ==> Up(p, f, n).value in seen
  {
    if n > 0 { ClosedSetHoldsWalk(p, seen, f, n - 1); }
  }

  // ── Moving ─────────────────────────────────────────────────────────────

  /** Re-parenting `id` leaves alone every chain that does not pass through it. */
  lemma {:induction false} ChainAvoids(p: Parents, id: Folder, up: Option<Folder>, s: seq<Folder>)
    requires id !in s
    ensures IsChain(p[id := up], s) <==> IsChain(p, s)
  {
    if |s| > 1 {
      ChainAvoids(p, id, up, s[1..]);
    }
  }

  /** A chain that reaches `id` continues with id's new chain. */
  lemma {:induction false} ChainRedirected(p: Parents, id: Folder, up: Option<Folder>, s: seq<Folder>, k: nat, tail: seq<Folder>)
    requires IsChain(p, s) && k < |s| && s[k] == id
    requires IsChain(p[id := up], tail) && tail[0] == id
    ensures IsChain(p[id := up], s[..k] + tail)
  {
    if k == 0 {
      assert s[..0] + tail == tail;
    } else {
      if s[0] == id { ChainHasNoRepeats(p, s, 0, k); }
      ChainRedirected(p, id, up, s[1..], k - 1, tail);
      var c := s[..k] + tail;
      assert c[1..] == s[1..][..k - 1] + tail;
      assert c[1] == s[1];
    }
  }

  /** An accepted move gives the moved folder the target's chain below it. */
  lemma MovedFolderChain(p: Parents, id: Folder, parent: Option<Folder>, t: seq<Folder>)
    requires parent.Some? ==> IsChain(p, t) && t[0] == parent.value && id !in t
    ensures IsChain(p[id := parent], [id] + if parent.Some? then t else [])
  {
    if parent.Some? {
      ChainAvoids(p, id, parent, t);
      assert ([id] + t)[1..] == t;
    }
  }

  /** After an accepted move, folders in the moved subtree get its new way up and all others keep theirs. */
  lemma MovedChains(l: Library, id: Folder, parent: Option<Folder>, s: seq<Folder>, t: seq<Folder>, k: nat)
    requires Moved(l, id, parent).Ok? && IsChain(l.parents, s)
    requires parent.Some? ==> IsChain(l.parents, t) && t[0] == parent.value
    ensures id !in s ==> IsChain(Moved(l, id, parent).value.parents, s)
    ensures k < |s| && s[k] == id ==>
              IsChain(Moved(l, id, parent).value.parents, s[..k] + ([id] + if parent.Some? then t else []))
  {
    if id !in s {
      ChainAvoids(l.parents, id, parent, s);
    }
    if k < |s| && s[k] == id {
      if parent.Some? { SubtreeIsOnChain(l.parents, t, id); }
      MovedFolderChain(l.parents, id, parent, t);
      ChainRedirected(l.parents, id, parent, s, k, [id] + if parent.Some? then t else []);
    }
  }

  lemma MovedForest(l: Library, id: Folder, parent: Option<Folder>)
    requires Forest(l.parents) && Moved(l, id, parent).Ok?
    ensures Forest(Moved(l, id, parent).value.parents)
  {
    var p' := Moved(l, id, parent).value.parents;
    var t := if parent.Some? then ChainOf(l.parents, parent.value) else [];
    forall f | f in p' ensures Rooted(p', f) {
      var s := ChainOf(l.parents, f);
      if id in s {
        var k :| 0 <= k < |s| && s[k] == id;
        MovedChains(l, id, parent, s, t, k);
        var c := s[..k] + ([id] + if parent.Some? then t else []);
        assert IsChain(p', c) && c[0] == f;
      } else {
        MovedChains(l, id, parent, s, t, 0);
      }
    }
  }

  ghost function ChainOf(p: Parents, f: Folder): (s: seq<Folder>)
    requires Rooted(p, f)
    ensures IsChain(p, s) && s[0] == f
  {
    var s :| IsChain(p, s) && s[0] == f; s
  }

  /** The refusal is exact: re-parenting under `target` keeps a forest precisely when the target is outside the moved subtree. */
  lemma MoveSafeIff(p: Parents, id: Folder, target: Folder)
    requires Forest(p) && id in p && target in p
    ensures Forest(p[id := Some(target)]) <==> !InSubtree(p, id, target)
  {
    var s, p' := ChainOf(p, target), p[id := Some(target)];
    SubtreeIsOnChain(p, s, id);
    if id !in s {
      MovedForest(Library(p, map[]), id, Some(target));
    } else if Forest(p') {
      var k :| 0 <= k < |s| && s[k] == id;
      var c := ChainOf(p', id);
      ChainSuffix(p', c, 0);
      ChainSuffix(p', c, 1);
      WalkMeets(p, id, target, s, k, c[1..]);
      assert c[1..][k] == c[k + 1];
      ChainHasNoRepeats(p', c, 0, k + 1);
    }
  }

  /** Before it meets `id`, the new way up is the old one. */
  lemma {:induction false} WalkMeets(p: Parents, id: Folder, target: Folder, s: seq<Folder>, k: nat, c: seq<Folder>)
    requires IsChain(p, s) && k < |s| && s[k] == id
    requires IsChain(p[id := Some(target)], c) && c[0] == s[0]
    ensures k < |c| && c[k] == id
  {
    if k > 0 {
      if s[0] == id { ChainHasNoRepeats(p, s, 0, k); }
      WalkMeets(p, id, target, s[1..], k - 1, c[1..]);
    }
  }

  /**
   * On a forest a move is refused exactly when the folder or its target is
   * unknown, or when going there would leave no forest; otherwise the folder
   * hangs under the target, or at the root, and nothing else has changed.
   */
  lemma MovedIff(l: Library, id: Folder, parent: Option<Folder>)
    requires Forest(l.parents)
    ensures Moved(l, id, parent).Ok? <==>
            id in l.parents && (parent.Some? ==> parent.value in l.parents && Forest(l.parents[id := parent]))
    ensures Moved(l, id, parent).Ok? ==> Moved(l, id, parent).value == Library(l.parents[id := parent], l.assets)
    ensures Moved(l, id, parent).Err? ==>
              Moved(l, id, parent).error == if id !in l.parents then FolderNotFound
                                            else if parent == Some(id) then IntoItself
                                            else if parent.value !in l.parents then TargetNotFound
                                            else IntoOwnSubfolder
  {
    if id in l.parents && parent.Some? && parent.value in l.parents {
      assert parent == Some(id) ==> Up(l.parents, id, 0) == Some(id);
      MoveSafeIff(l.parents, id, parent.value);
    }
  }

  // ── Creating ───────────────────────────────────────────────────────────

  /** A folder is created at the root or under a folder that exists, and nowhere else. */
  lemma CreatedIff(l: Library, id: Folder, parent: Option<Folder>)
    ensures Created(l, id, parent) ==
            if parent.Some? && parent.value !in l.parents then Err(ParentNotFound)
            else Ok(Library(l.parents[id := parent], l.assets))
  {
  }

  lemma CreatedForest(l: Library, id: Folder, parent: Option<Folder>)
    requires Forest(l.parents) && id !in l.parents && Created(l, id, parent).Ok?
    ensures Forest(Created(l, id, parent).value.parents)
  {
    var p' := Created(l, id, parent).value.parents;
    forall f | f in p' ensures Rooted(p', f) {
      if f in l.parents {
        CreatedKeepsChain(l.parents, id, parent, ChainOf(l.parents, f));
      } else if parent.None? {
        assert IsChain(p', [id]);
      } else {
        var t := ChainOf(l.parents, parent.value);
        CreatedKeepsChain(l.parents, id, parent, t);
        assert ([id] + t)[1..] == t;
        assert IsChain(p', [id] + t);
      }
    }
  }

  /** A new folder is on nobody's chain. */
  lemma CreatedKeepsChain(p: Parents, id: Folder, parent: Option<Folder>, s: seq<Folder>)
    requires IsChain(p, s) && id !in p
    ensures IsChain(p[id := parent], s)
  {
    forall i | 0 <= i < |s| ensures s[i] != id { ChainSuffix(p, s, i); }
    ChainAvoids(p, id, parent, s);
  }

  // ── Deleting ───────────────────────────────────────────────────────────

  function Erased(s: seq<Folder>, id: Folder): seq<Folder> {
    if s == [] then []
    else if s[0] == id then Erased(s[1..], id)
    else [s[0]] + Erased(s[1..], id)
  }

  lemma {:induction false} ErasedAbsent(s: seq<Folder>, id: Folder)
    requires id !in s
    ensures Erased(s, id) == s
  {
    if s != [] { ErasedAbsent(s[1..], id); }
  }

  /** Once its subfolders are lifted, a folder drops out of every other folder's chain and nothing else changes. */
  lemma {:induction false} LiftedChain(l: Library, id: Folder, s: seq<Folder>)
    requires id in l.parents && IsChain(l.parents, s) && s[0] != id
    ensures IsChain(SubfoldersLifted(l, id).parents, Erased(s, id))
    ensures id !in Erased(s, id) && Erased(s, id)[0] == s[0]
  {
    var p, p' := l.parents, SubfoldersLifted(l, id).parents;
    if |s| > 1 {
      if s[1] == id {
        forall i | 2 <= i < |s| ensures s[i] != id {
          if s[i] == id { ChainHasNoRepeats(p, s, 1, i); }
        }
        assert id !in s[2..];
        ErasedAbsent(s[2..], id);
        assert s[1..][1..] == s[2..];
        assert Erased(s[1..], id) == s[2..];
        assert Erased(s, id) == [s[0]] + s[2..];
        if |s| > 2 {
          LiftedChain(l, id, s[2..]);
          assert ([s[0]] + s[2..])[1..] == s[2..];
        }
      } else {
        LiftedChain(l, id, s[1..]);
        assert Erased(s, id)[1..] == Erased(s[1..], id);
      }
    }
  }

  /** Deleting a folder leaves every other folder's ancestor chain as it was with that folder erased. */
  lemma DeletedChain(l: Library, id: Folder, s: seq<Folder>)
    requires id in l.parents && IsChain(l.parents, s) && s[0] != id
    ensures IsChain(Deleted(l, id).value.parents, Erased(s, id)) && Erased(s, id)[0] == s[0]
  {
    var lifted := SubfoldersLifted(l, id).parents;
    LiftedChain(l, id, s);
    ChainWithout(lifted, id, Erased(s, id));
    assert Deleted(l, id).value.parents == lifted - {id};
  }

  lemma {:induction false} ChainWithout(p: Parents, id: Folder, s: seq<Folder>)
    requires IsChain(p, s) && id !in s
    ensures IsChain(p - {id}, s)
  {
    if |s| > 1 { ChainWithout(p, id, s[1..]); }
  }

  /** Every stored asset sits at the root or in an existing folder. */
  ghost predicate AssetsPlaced(l: Library) {
    forall a :: a in l.assets ==> l.assets[a].None? || l.assets[a].value in l.parents
  }

  /** A deletion loses no asset: those of the folder go to its parent or the root, the others stay. */
  lemma DeletedAssets(l: Library, id: Folder)
    requires Forest(l.parents) && AssetsPlaced(l) && id in l.parents
    ensures var l' := Deleted(l, id).value;
            && l'.assets.Keys == l.assets.Keys
            && l'.parents.Keys == l.parents.Keys - {id}
            && AssetsPlaced(l')
            && forall a :: a in l.assets ==> l'.assets[a] == (if l.assets[a] == Some(id) then l.parents[id] else l.assets[a])
  {
    var s := ChainOf(l.parents, id);
    if |s| > 1 {
      ChainSuffix(l.parents, s, 1);
      if s[1] == id { ChainHasNoRepeats(l.parents, s, 0, 1); }
    }
  }

  /** Deleting a known folder hangs its subfolders under its parent, or at the root, and moves no other folder. */
  lemma DeletedFolders(l: Library, id: Folder)
    ensures Deleted(l, id) == Err(FolderNotFound) <==> id !in l.parents
    ensures id in l.parents ==>
              && Deleted(l, id).Ok?
              && var p' := Deleted(l, id).value.parents;
                 && p'.Keys == l.parents.Keys - {id}
                 && forall f :: f in p' ==> p'[f] == if l.parents[f] == Some(id) then l.parents[id] else l.parents[f]
  {
  }

  /** The three statements of a deletion are not one transaction: after each of them the folders still form a forest. */
  lemma DeletedForest(l: Library, id: Folder)
    requires Forest(l.parents) && id in l.parents
    ensures Forest(AssetsLifted(l, id).parents)
    ensures Forest(SubfoldersLifted(AssetsLifted(l, id), id).parents)
    ensures Forest(Deleted(l, id).value.parents)
  {
    var p', p'' := SubfoldersLifted(l, id).parents, Deleted(l, id).value.parents;
    forall f | f in p' ensures Rooted(p', f) {
      var s := ChainOf(l.parents, f);
      if f == id {
        DeletedFolderKeepsChain(l, id, s);
      } else {
        LiftedChain(l, id, s);
      }
    }
    forall f | f in p'' ensures Rooted(p'', f) {
      DeletedChain(l, id, ChainOf(l.parents, f));
    }
  }

  lemma DeletedFolderKeepsChain(l: Library, id: Folder, s: seq<Folder>)
    requires id in l.parents && IsChain(l.parents, s) && s[0] == id
    ensures IsChain(SubfoldersLifted(l, id).parents, s)
  {
    if |s| > 1 {
      if s[1] == id { ChainHasNoRepeats(l.parents, s, 0, 1); }
      LiftedChain(l, id, s[1..]);
      forall i | 1 <= i < |s| ensures s[i] != id {
        if s[i] == id { ChainHasNoRepeats(l.parents, s, 0, i); }
      }
      ErasedAbsent(s[1..], id);
    }
  }

  // ── Over whole runs ────────────────────────────────────────────────────

  datatype Step = CreateStep(id: Folder, parent: Option<Folder>) | MoveStep(id: Folder, parent: Option<Folder>) | DeleteStep(id: Folder)

  /** New folders get new ids; a refused call changes nothing. */
  ghost function Next(l: Library, step: Step): Library {
    var r := match step
             case CreateStep(id, parent) => if id in l.parents then Ok(l) else Created(l, id, parent)
             case MoveStep(id, parent) => Moved(l, id, parent)
             case DeleteStep(id) => Deleted(l, id);
    if r.Ok? then r.value else l
  }

  ghost function Run(l: Library, steps: seq<Step>): Library {
    if steps == [] then l else Next(Run(l, steps[..|steps| - 1]), steps[|steps| - 1])
  }

  /** Whatever is created, moved and deleted, every folder stays reachable from the root and every asset stays placed. */
  lemma {:induction false} RunForest(l: Library, steps: seq<Step>)
    requires Forest(l.parents) && AssetsPlaced(l)
    ensures Forest(Run(l, steps).parents) && AssetsPlaced(Run(l, steps))
    ensures Run(l, steps).assets.Keys == l.assets.Keys
  {
    if steps != [] {
      var before := Run(l, steps[..|steps| - 1]);
      RunForest(l, steps[..|steps| - 1]);
      match steps[|steps| - 1]
      case CreateStep(id, parent) =>
        if id !in before.parents && Created(before, id, parent).Ok? { CreatedForest(before, id, parent); }
      case MoveStep(id, parent) =>
        if Moved(before, id, parent).Ok? { MovedForest(before, id, parent); }
      case DeleteStep(id) =>
        if id in before.parents { DeletedForest(before, id); DeletedAssets(before, id); }
    }
  }
}
