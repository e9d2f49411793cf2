/**
 * `install_local` and `_undo_failed_install` of `src/userbot/manager.py`: what an adoption leaves on
 * disk and what it leaves running, for every way its unload and its loads can end.
 */
module Adoption {
  import opened Text
  import opened LifecycleRoutes

  /** A directory tree: the bytes under every relative path. */
  type Tree = map<seq<string>, string>

  // ---------------------------------------------------------------- disk

  /** The two places the outgoing copy can be. */
  datatype Disk = Disk(target: Option<Tree>, stash: Option<Tree>)

  /** `shutil.move` to an existing directory puts the tree inside it, under its own name. */
  function Nested(outer: Tree, name: string, inner: Tree): Tree {
    outer + map p | p in Prefixed(name, inner.Keys) :: inner[p[1..]]
  }

  function Prefixed(name: string, paths: set<seq<string>>): set<seq<string>> {
    set p | p in paths :: [name] + p
  }

  /** The name is free inside the directory, or there is no directory in the way. */
  predicate CanMove(onto: Option<Tree>, name: string) {
    onto.Some? ==> forall p :: p in onto.value ==> p == [] || p[0] != name
  }

  function Moved(tree: Tree, onto: Option<Tree>, name: string): Tree {
    if onto.None? then tree else Nested(onto.value, name, tree)
  }

  /** What is in the way does not show afterwards. */
  predicate Harmless(onto: Option<Tree>, tree: Tree) {
    onto.None? || (onto == Some(map[]) && tree == map[])
  }

  // ---------------------------------------------------------------- what is published

  /** What is published under the name: the tree it was loaded from, and whether its context is live. */
  datatype Runtime = NotPublished | Published(tree: Tree, live: bool)

  /** How a load of the name goes: it never gets to its body, or it takes a route through it. */
  datatype Attempt = NotEntered(cancelled: bool) | Entered(route: Route, cancelled: bool)

  predicate Succeeds(a: Attempt) {
    a.Entered? && a.route.Succeeded?
  }

  /** Past the publication, whatever became of the recording. */
  predicate Publishes(a: Attempt) {
    a.Entered? && (a.route.Succeeded? || a.route.Unrecorded?)
  }

  /** The tables took the generation back that was published before. */
  predicate PutsBack(a: Attempt) {
    a.Entered? && (a.route.PutBack? || a.route.Reopened?)
  }

  /** What a load from `tree` leaves published. */
  function EndRuntime(before: Runtime, a: Attempt, tree: Tree): Runtime {
    if a.NotEntered? then before
    else match a.route
         case Succeeded => Runtime.Published(tree, true)
         case Unrecorded => Runtime.Published(tree, false)
         case FailedEarly => before
         case PutBack => Switched(before, true)
         case Reopened(_) => Switched(before, true)
         case _ => Switched(before, false)
  }

  function Switched(r: Runtime, live: bool): Runtime {
    if r.Published? then r.(live := live) else r
  }

  /** A failed first load, and perhaps a load of the outgoing copy after it. */
  lemma TwoLoads(load: Attempt, staged: Tree, again: bool, reload: Attempt, tree: Tree)
    requires !Succeeds(load)
    ensures var failed := EndRuntime(NotPublished, load, staged);
            var end := if again then EndRuntime(failed, reload, tree) else failed;
            && (end.Published? <==> Publishes(load) || (again && Publishes(reload)))
            && (again && Publishes(reload) ==> end == Runtime.Published(tree, Succeeds(reload)))
            && (end.Published? && !(again && Publishes(reload)) ==>
                  end == Runtime.Published(staged, again && PutsBack(reload)))
  {}

  /** The runtime is popped as soon as an unload has the lock, however it ends. */
  datatype UnloadFate = NeverStarted | Unloaded | FailedAfterwards

  // ---------------------------------------------------------------- the operation

  /** How one awaited file operation ends; a cancelled one may still take effect in its thread. */
  datatype Fate = Goes | CancelledAfterwards | NotStarted

  datatype CopyFate = Copied | CopiedThenCancelled | Partly(left: Option<Tree>)

  /** Removal ignores errors, so something may be left. */
  datatype ClearFate = NotCleared | Removed(left: Option<Tree>, cancelled: bool)

  datatype Fates = Fates(accepted: bool, unload: UnloadFate, stash: Fate, copy: CopyFate, load: Attempt,
                         clear: ClearFate, unstash: Fate, reload: Attempt, drop: ClearFate)

  datatype Ending = Rejected | Installed | InstalledThenCancelled | FailedBefore | FailedLoading | FailedUndoing

  /** What other tasks can see of a name: its two directories and what is published. */
  datatype Site = Site(disk: Disk, running: Runtime)

  /** Whatever runs is unloaded to the end. */
  predicate Unloads(s: Site, f: Fates) {
    s.running.Published? ==> f.unload.Unloaded?
  }

  /** The outgoing copy leaves its place. */
  predicate MovesAside(s: Site, f: Fates, name: string) {
    Unloads(s, f) && s.disk.target.Some? && CanMove(s.disk.stash, name) && !f.stash.NotStarted?
  }

  /** The preparations come as far as copying the staged tree. */
  predicate Copies(s: Site, f: Fates, name: string) {
    Unloads(s, f) && (s.disk.target.Some? ==> CanMove(s.disk.stash, name) && f.stash.Goes?)
  }

  predicate Prepares(s: Site, f: Fates, name: string) {
    Copies(s, f, name) && f.copy.Copied?
  }

  /** Moving the outgoing copy back takes effect. */
  predicate MovesBack(f: Fates, name: string) {
    f.clear.Removed? && !f.clear.cancelled && CanMove(f.clear.left, name) && !f.unstash.NotStarted?
  }

  /** The undo comes as far as loading the outgoing copy again. */
  predicate Reloads(f: Fates, name: string) {
    MovesBack(f, name) && f.unstash.Goes?
  }

  /** The undo comes to its end. A reload that fails is logged, one that is cancelled is not caught. */
  predicate Undoes(f: Fates, name: string, hadPrevious: bool) {
    && f.clear.Removed? && !f.clear.cancelled
    && (hadPrevious ==> Reloads(f, name) && (Succeeds(f.reload) || !f.reload.cancelled))
  }

  /** What comes back is not the outgoing tree but a directory with that tree somewhere inside. */
  predicate Buries(f: Fates, name: string, outgoing: Tree, stale: Option<Tree>) {
    MovesBack(f, name) && !(Harmless(stale, outgoing) && Harmless(f.clear.left, outgoing))
  }

  /** The outgoing tree waits in the stash, or is in place. */
  predicate Conserved(d: Disk, outgoing: Tree, stale: Option<Tree>, name: string) {
    d.stash == Some(Moved(outgoing, stale, name)) || d.target == Some(outgoing)
  }

  function CopyLeaves(fate: CopyFate, staged: Tree): Option<Tree> {
    if fate.Partly? then fate.left else Some(staged)
  }

  /** The site after the preparations, wherever they stop. */
  function Prepared(s: Site, staged: Tree, f: Fates, name: string): Site {
    var aside := MovesAside(s, f, name);
    Site(Disk(if Copies(s, f, name) then CopyLeaves(f.copy, staged) else if aside then None else s.disk.target,
              if aside then Some(Moved(s.disk.target.value, s.disk.stash, name)) else s.disk.stash),
         if f.unload.NeverStarted? then s.running else NotPublished)
  }

  /** The site after the undo, wherever it stops. */
  function Undone(s: Site, hadPrevious: bool, f: Fates, name: string): Site
    requires hadPrevious ==> s.disk.stash.Some?
  {
    if hadPrevious && MovesBack(f, name) then
      var back := Moved(s.disk.stash.value, f.clear.left, name);
      Site(Disk(Some(back), None), if f.unstash.Goes? then EndRuntime(s.running, f.reload, back) else s.running)
    else s.(disk := s.disk.(target := if f.clear.Removed? then f.clear.left else s.disk.target))
  }

  /** The site after the stash is dropped, wherever that stops. */
  function Dropped(s: Site, f: Fates): Site {
    if f.drop.Removed? then s.(disk := s.disk.(stash := f.drop.left)) else s
  }

  /** Dropping the stash is not disturbed. */
  predicate Drops(f: Fates) {
    f.drop.Removed? && !f.drop.cancelled
  }

  /** How an adoption ends and what it leaves. */
  function Concluded(s: Site, staged: Tree, f: Fates, name: string): (Ending, Site) {
    var hadPrevious, prepared := s.disk.target.Some?, Prepared(s, staged, f, name);
    var loaded := prepared.(running := EndRuntime(prepared.running, f.load, staged));
    if !f.accepted then (Rejected, s)
    else if !Prepares(s, f, name) then (FailedBefore, prepared)
    else if !Succeeds(f.load) then
      (if Undoes(f, name, hadPrevious) then FailedLoading else FailedUndoing, Undone(loaded, hadPrevious, f, name))
    else if !hadPrevious then (Installed, loaded)
    else (if Drops(f) then Installed else InstalledThenCancelled, Dropped(loaded, f))
  }

  // ---------------------------------------------------------------- what an adoption promises

  /** The new copy is in use. */
  predicate Adopts(s: Site, f: Fates, name: string) {
    f.accepted && Prepares(s, f, name) && Succeeds(f.load)
  }

  /** The staged tree is in place and live exactly if the gate, the preparations and the load all went through. */
  lemma AdoptedExactly(s: Site, staged: Tree, f: Fates, name: string)
    ensures var (ending, end) := Concluded(s, staged, f, name);
            && (ending.Installed? || ending.InstalledThenCancelled? <==> Adopts(s, f, name))
            && (Adopts(s, f, name) ==>
                  end.disk.target == Some(staged) && end.running == Runtime.Published(staged, true))
            && (ending.Installed? <==> Adopts(s, f, name) && (s.disk.target.Some? ==> Drops(f)))
            && (Adopts(s, f, name) && s.disk.target.Some? && f.drop.Removed? ==> end.disk.stash == f.drop.left)
            && (Adopts(s, f, name) && s.disk.target.None? ==> end.disk.stash == s.disk.stash)
  {}

  /** The steps a failing adoption took on the disk were none, or were all taken back. */
  predicate TakesBack(s: Site, f: Fates, name: string) {
    if !f.accepted then true
    else if !Prepares(s, f, name) then
      if s.disk.target.Some? then !MovesAside(s, f, name) else Copies(s, f, name) ==> f.copy == Partly(None)
    else if s.disk.target.Some? then MovesBack(f, name) && s.disk.stash.None? && f.clear.left.None?
    else f.clear.Removed? && f.clear.left.None?
  }

  /**
   * An adoption that fails leaves both directories byte for byte as they were if and only if it had
   * not touched them yet, or the new copy is removed without remainder, no stash was left from
   * before, and the outgoing copy is moved back.
   */
  lemma {:induction false} FailedAdoptionLeavesTheDisk(s: Site, staged: Tree, f: Fates, name: string)
    requires !Adopts(s, f, name)
    ensures var end := Concluded(s, staged, f, name).1;
            && (TakesBack(s, f, name) ==> end.disk == s.disk)
            && (s.disk.target != Some(map[]) && end.disk == s.disk ==> TakesBack(s, f, name))
  {
    var outgoing := if s.disk.target.Some? then s.disk.target.value else map[];
    if f.accepted && s.disk.target.Some? && outgoing != map[] {
      if MovesAside(s, f, name) { MovedShows(outgoing, s.disk.stash, name); }
      if f.clear.Removed? { BuriedIsOther(f.clear.left, s.disk.stash, name, outgoing); }
    }
  }

  /**
   * Once the load has failed, the outgoing copy is back in place with nothing in the stash if and
   * only if it is moved back and neither a stash from before nor a remnant of the new copy shows.
   */
  lemma {:induction false} OutgoingIsBackExactly(s: Site, staged: Tree, f: Fates, name: string)
    requires f.accepted && Prepares(s, f, name) && !Succeeds(f.load) && s.disk.target.Some?
    ensures var (end, outgoing) := (Concluded(s, staged, f, name).1, s.disk.target.value);
            && (end.disk == Disk(Some(outgoing), None)
                <==> MovesBack(f, name) && Harmless(s.disk.stash, outgoing) && Harmless(f.clear.left, outgoing))
            && (Conserved(end.disk, outgoing, s.disk.stash, name) <==> !Buries(f, name, outgoing, s.disk.stash))
  {
    if f.clear.Removed? { BuriedIsOther(f.clear.left, s.disk.stash, name, s.disk.target.value); }
  }

  /** Up to the load, and if it is never reached, the outgoing copy is in the stash or in place. */
  lemma StoppedEarlyConserves(s: Site, staged: Tree, f: Fates, name: string)
    requires s.disk.target.Some? && !(f.accepted && Prepares(s, f, name))
    ensures Conserved(Concluded(s, staged, f, name).1.disk, s.disk.target.value, s.disk.stash, name)
  {}

  /**
   * What is published after a failed load is what the undo loaded, what the failed load left
   * behind, or nothing; and the outgoing copy runs again exactly if it is moved back and loads.
   */
  lemma RunningAfterFailure(s: Site, staged: Tree, f: Fates, name: string)
    requires f.accepted && Prepares(s, f, name) && !Succeeds(f.load)
    ensures var end := Concluded(s, staged, f, name).1;
            var again := s.disk.target.Some? && Reloads(f, name);
            && (end.running.Published? <==> Publishes(f.load) || (again && Publishes(f.reload)))
            && (again && Publishes(f.reload) ==>
                  end.disk.target.Some? && end.running == Runtime.Published(end.disk.target.value, Succeeds(f.reload)))
            && (end.running.Published? && !(again && Publishes(f.reload)) ==>
                  end.running == Runtime.Published(staged, again && PutsBack(f.reload)))
  {
    var again := s.disk.target.Some? && Reloads(f, name);
    var end := Concluded(s, staged, f, name).1;
    TwoLoads(f.load, staged, again, f.reload, if again then end.disk.target.value else map[]);
  }

  /**
   * The caller sees the error of the load itself exactly if nothing goes wrong in undoing it but, at most, the
   * load of the outgoing copy: the new copy is removed, the outgoing one moved back, and nothing is cancelled.
   */
  lemma LoadErrorShownExactly(s: Site, staged: Tree, f: Fates, name: string)
    ensures Concluded(s, staged, f, name).0.FailedLoading?
            <==> && f.accepted && Prepares(s, f, name) && !Succeeds(f.load)
                 && f.clear.Removed? && !f.clear.cancelled
                 && (s.disk.target.Some? ==>
                       && (f.clear.left.Some? ==> forall p :: p in f.clear.left.value ==> !([name] <= p))
                       && f.unstash.Goes?
                       && (f.reload.cancelled ==> f.reload.Entered? && f.reload.route.Succeeded?))
  {
    if f.clear.Removed? && f.clear.left.Some? { FreeExactly(f.clear.left.value, name); }
  }

  lemma FreeExactly(tree: Tree, name: string)
    ensures CanMove(Some(tree), name) <==> forall p :: p in tree ==> !([name] <= p)
  {
    assert forall p: seq<string> :: [name] <= p <==> p != [] && p[0] == name;
  }

  /** A failed unload has withdrawn the name all the same; one that never started has not. */
  lemma RunningWithoutLoad(s: Site, staged: Tree, f: Fates, name: string)
    requires f.accepted && !Prepares(s, f, name)
    ensures Concluded(s, staged, f, name).1.running == if f.unload.NeverStarted? then s.running else NotPublished
  {}

  // ---------------------------------------------------------------- in place

  class Installer {
    const name: string
    var target: Option<Tree>
    var stash: Option<Tree>
    var running: Runtime
    ghost var trace: seq<Disk>

    function View(): Disk
      reads this
    {
      Disk(target, stash)
    }

    function Here(): Site
      reads this
    {
      Site(View(), running)
    }

    /** Notes the disk as other tasks can see it at a suspension. */
    ghost method Note()
      modifies `trace
      ensures trace == old(trace) + [View()]
    {
      trace := trace + [View()];
    }

    /** `_undo_failed_install`; the answer is whether it came to its end. */
    method Undo(hadPrevious: bool, f: Fates, ghost outgoing: Tree, ghost stale: Option<Tree>) returns (complete: bool)
      requires hadPrevious ==> stash == Some(Moved(outgoing, stale, name))
      modifies `target, `stash, `running, `trace
      ensures complete <==> Undoes(f, name, hadPrevious)
      ensures Here() == Undone(old(Here()), hadPrevious, f, name)
      ensures |trace| >= |old(trace)| && trace[..|old(trace)|] == old(trace)
      ensures hadPrevious && !Buries(f, name, outgoing, stale) ==>
                forall i :: |old(trace)| <= i < |trace| ==> Conserved(trace[i], outgoing, stale, name)
      ensures hadPrevious ==> (Conserved(View(), outgoing, stale, name) <==> !Buries(f, name, outgoing, stale))
    {
      if f.clear.Removed? { target := f.clear.left; }
      Note();
      if f.clear.NotCleared? || f.clear.cancelled { return false; }
      if !hadPrevious { return true; }
      complete := MoveBack(f, outgoing, stale);
    }

    method MoveBack(f: Fates, ghost outgoing: Tree, ghost stale: Option<Tree>) returns (complete: bool)
      requires f.clear.Removed? && !f.clear.cancelled && target == f.clear.left
      requires stash == Some(Moved(outgoing, stale, name))
      modifies `target, `stash, `running, `trace
      ensures complete <==> Undoes(f, name, true)
      ensures Here() == Undone(old(Here()), true, f, name)
      ensures Conserved(View(), outgoing, stale, name) <==> !Buries(f, name, outgoing, stale)
      ensures trace == old(trace) || trace == old(trace) + [View()]
    {
      BuriedIsOther(f.clear.left, stale, name, outgoing);
      if !CanMove(target, name) || f.unstash.NotStarted? { return false; }
      target, stash := Some(Moved(stash.value, target, name)), None;
      Note();
      if f.unstash.CancelledAfterwards? { return false; }
      running := EndRuntime(running, f.reload, target.value);
      complete := Succeeds(f.reload) || !f.reload.cancelled;
    }

    /** From the gate to the load: the outgoing copy is unloaded and moved aside, the staged one copied in. */
    method Prepare(staged: Tree, f: Fates) returns (ok: bool, hadPrevious: bool)
      modifies `target, `stash, `running, `trace
      ensures ok <==> Prepares(old(Here()), f, name)
      ensures Here() == Prepared(old(Here()), staged, f, name)
      ensures hadPrevious <==> MovesAside(old(Here()), f, name)
      ensures |trace| >= |old(trace)| && trace[..|old(trace)|] == old(trace)
      ensures old(target).Some? ==>
                forall i :: |old(trace)| <= i < |trace| ==> Conserved(trace[i], old(target).value, old(stash), name)
    {
      hadPrevious := false;
      Note();
      if running.Published? {
        if !f.unload.NeverStarted? { running := NotPublished; }
        if !f.unload.Unloaded? { return false, false; }
        Note();
      }
      if target.Some? {
        if !CanMove(stash, name) || f.stash.NotStarted? { return false, false; }
        stash, target := Some(Moved(target.value, stash, name)), None;
        hadPrevious := true;
        Note();
        if f.stash.CancelledAfterwards? { return false, true; }
      }
      match f.copy
      case Copied => target := Some(staged); ok := true;
      case CopiedThenCancelled => target := Some(staged); ok := false;
      case Partly(left) => target := left; ok := false;
      Note();
    }

    /** `install_local`, from the checks of the staged tree to the end. */
    method InstallLocal(staged: Tree, f: Fates) returns (ending: Ending)
      modifies `target, `stash, `running, `trace
      ensures (ending, Here()) == Concluded(old(Here()), staged, f, name)
      // Which ending it comes to.
      ensures ending.Rejected? <==> !f.accepted
      ensures ending.FailedBefore? <==> f.accepted && !Prepares(old(Here()), f, name)
      ensures ending.FailedLoading? <==> f.accepted && Prepares(old(Here()), f, name) && !Succeeds(f.load)
                                         && Undoes(f, name, old(target).Some?)
      ensures ending.FailedUndoing? <==> f.accepted && Prepares(old(Here()), f, name) && !Succeeds(f.load)
                                         && !Undoes(f, name, old(target).Some?)
      ensures ending.Installed? <==> Adopts(old(Here()), f, name) && (old(target).Some? ==> Drops(f))
      ensures ending.InstalledThenCancelled? <==> Adopts(old(Here()), f, name) && old(target).Some? && !Drops(f)
      // What a failure leaves of the two directories.
      ensures !Adopts(old(Here()), f, name) && TakesBack(old(Here()), f, name) ==> View() == old(View())
      ensures !Adopts(old(Here()), f, name) && old(target) != Some(map[]) && View() == old(View()) ==>
                TakesBack(old(Here()), f, name)
      // The outgoing tree is in the stash or in place at every suspension, unless it is buried.
      ensures |trace| >= |old(trace)| && trace[..|old(trace)|] == old(trace)
      ensures old(target).Some? && !Buries(f, name, old(target).value, old(stash)) ==>
                forall i :: |old(trace)| <= i < |trace| ==> Conserved(trace[i], old(target).value, old(stash), name)
    {
      ghost var before := Here();
      AdoptedExactly(before, staged, f, name);
      if !Adopts(before, f, name) { FailedAdoptionLeavesTheDisk(before, staged, f, name); }
      ghost var outgoing, stale := if target.Some? then target.value else map[], stash;
      hide TakesBack, Buries, EndRuntime;
      if !f.accepted { return Rejected; }
      var ok, hadPrevious := Prepare(staged, f);
      if !ok { return FailedBefore; }
      running := EndRuntime(running, f.load, staged);
      if !Succeeds(f.load) {
        var complete := Undo(hadPrevious, f, outgoing, stale);
        return if complete then FailedLoading else FailedUndoing;
      }
      if hadPrevious {
        Note();
        if f.drop.NotCleared? { return InstalledThenCancelled; }
        stash := f.drop.left;
        if f.drop.cancelled { return InstalledThenCancelled; }
      }
      ending := Installed;
    }
  }

  // ---------------------------------------------------------------- burying

  predicate Reaches(tree: Tree, depth: nat) {
    exists p :: p in tree && |p| >= depth
  }

  /** Moving onto an existing directory takes every path one level down. */
  lemma {:induction false} MovedReaches(tree: Tree, onto: Option<Tree>, name: string, depth: nat)
    requires Reaches(tree, depth)
    ensures Reaches(Moved(tree, onto, name), if onto.Some? then depth + 1 else depth)
  {
    if onto.Some? {
      var p :| p in tree && |p| >= depth;
      assert [name] + p in Prefixed(name, tree.Keys) && [name] + p in Nested(onto.value, name, tree);
    }
  }

  /** What is moved back through a stale stash and onto a remnant is the outgoing tree exactly if neither shows. */
  lemma {:induction false} BuriedIsOther(left: Option<Tree>, stale: Option<Tree>, name: string, outgoing: Tree)
    ensures Moved(Moved(outgoing, stale, name), left, name) == outgoing
            <==> Harmless(stale, outgoing) && Harmless(left, outgoing)
  {
    var stashed := Moved(outgoing, stale, name);
    if outgoing != map[] {
      var p := Deepest(outgoing.Keys);
      assert Reaches(outgoing, |p|);
      MovedReaches(outgoing, stale, name, |p|);
      MovedReaches(stashed, left, name, if stale.Some? then |p| + 1 else |p|);
      assert !Reaches(outgoing, |p| + 1);
      DeeperIsDeep(Moved(stashed, left, name), |p| + 1);
    } else {
      NothingNested(outgoing, stale, name);
      NothingNested(stashed, left, name);
    }
  }

  /** A tree moved onto a directory where its name is free changes that directory. */
  lemma MovedShows(tree: Tree, onto: Option<Tree>, name: string)
    requires tree != map[] && CanMove(onto, name)
    ensures Some(Moved(tree, onto, name)) != onto
  {
    if onto.Some? {
      var p :| p in tree;
      assert [name] + p in Prefixed(name, tree.Keys) && [name] + p in Nested(onto.value, name, tree);
      assert ([name] + p)[0] == name;
    }
  }

  /** Moving loses nothing: a directory in the way keeps its paths, and the tree is below it under the name. */
  lemma MovedExactly(tree: Tree, onto: Option<Tree>, name: string, p: seq<string>)
    requires CanMove(onto, name)
    ensures onto.None? ==> Moved(tree, onto, name) == tree
    ensures onto.Some? ==>
              var r := Moved(tree, onto, name);
              && (p in r <==> p in onto.value || (p != [] && p[0] == name && p[1..] in tree))
              && (p in onto.value ==> r[p] == onto.value[p])
              && (p != [] && p[0] == name && p[1..] in tree ==> r[p] == tree[p[1..]])
  {
    if onto.Some? {
      if p != [] && p[0] == name && p[1..] in tree { assert p == [name] + p[1..]; }
      if q :| q in tree && p == [name] + q { assert p[1..] == q; }
    }
  }

  lemma DeeperIsDeep(tree: Tree, depth: nat)
    ensures Reaches(tree, depth + 1) ==> Reaches(tree, depth)
  {}

  lemma NothingNested(tree: Tree, onto: Option<Tree>, name: string)
    ensures Moved(tree, onto, name) == map[] <==> tree == map[] && (onto.None? || onto == Some(map[]))
  {
    if onto.Some? {
      var nested := Nested(onto.value, name, tree);
      if p :| p in tree { assert [name] + p in Prefixed(name, tree.Keys) && [name] + p in nested; }
      if p :| p in onto.value { assert p in nested; }
    }
  }

  lemma {:induction false} Deepest(paths: set<seq<string>>) returns (p: seq<string>)
    requires paths != {}
    ensures p in paths && forall q :: q in paths ==> |q| <= |p|
  {
    p :| p in paths;
    var rest := paths - {p};
    assert paths == rest + {p};
    if rest != {} {
      var r := Deepest(rest);
      if |r| >= |p| { p := r; }
    }
  }
}
