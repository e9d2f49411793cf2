/** What the watcher asks for over a run, read off the plugin directory as it was listed. */
module WatcherRequests {
  import opened Text
  import opened Watcher

  /** A directory with a manifest under this name. */
  ghost predicate HasPlugin(paths: seq<Path>, name: string) {
    exists i :: 0 <= i < |paths| && paths[i].isDir && paths[i].hasManifest && paths[i].name == name
  }

  lemma {:induction false} ScansThePlugins(previous: Snapshot, paths: seq<Path>)
    ensures forall name :: name in CachedScan(previous, paths) <==> HasPlugin(paths, name)
    decreases |paths|
  {
    if paths != [] {
      var init, p := paths[..|paths| - 1], paths[|paths| - 1];
      ScansThePlugins(previous, init);
      forall name ensures HasPlugin(paths, name) <==> HasPlugin(init, name) || (IsPlugin(p) && p.name == name) {
        if i :| 0 <= i < |init| && init[i].isDir && init[i].hasManifest && init[i].name == name {
          assert paths[i] == init[i];
        }
      }
    }
  }

  /** The listing in front of tick `k`. */
  function Before(first: seq<Path>, listings: seq<seq<Path>>, k: nat): seq<Path>
    requires k < |listings|
  {
    if k == 0 then first else listings[k - 1]
  }

  /**
   * In every tick of every run a plugin is loaded if and only if its directory came, and unloaded if and only if
   * it went; whatever was or was not hashed.
   */
  lemma {:induction false} LoadsExactly(older: Snapshot, first: seq<Path>, listings: seq<seq<Path>>, k: nat,
      name: string)
    requires k < |listings|
    ensures var run := CachedRun(CachedScan(older, first), listings);
            && |run| == |listings|
            && (name in run[k].loads
                <==> HasPlugin(listings[k], name) && !HasPlugin(Before(first, listings, k), name))
            && (name in run[k].unloads
                <==> HasPlugin(Before(first, listings, k), name) && !HasPlugin(listings[k], name))
    decreases |listings|
  {
    var snapshot := CachedScan(older, first);
    hide HasPlugin, CachedScan;
    ScansThePlugins(older, first);
    ScansThePlugins(snapshot, listings[0]);
    RunIsAsLong(CachedScan(snapshot, listings[0]), listings[1..]);
    if k > 0 { LoadsExactly(snapshot, listings[0], listings[1..], k - 1, name); }
  }

  lemma {:induction false} RunIsAsLong(snapshot: Snapshot, listings: seq<seq<Path>>)
    ensures |CachedRun(snapshot, listings)| == |listings|
    decreases |listings|
  {
    if listings != [] { RunIsAsLong(CachedScan(snapshot, listings[0]), listings[1..]); }
  }

  /**
   * Between two ticks of a run a plugin that stays is reloaded if and only if a path or a content among the files
   * that count changed, as long as signatures give changes away and these files are readable and free of NULs.
   */
  lemma {:induction false} RunReloadsExactly(first: seq<Path>, listings: seq<seq<Path>>, k: nat, i: nat, j: nat)
    requires Faithful(first, listings) && NamesDiffer(first) && k < |listings|
    requires i < |Before(first, listings, k)| && j < |listings[k]|
    requires var p, r := Before(first, listings, k)[i], listings[k][j];
             p.name == r.name && IsPlugin(p) && IsPlugin(r) && Plain(Contents(p.files)) && Plain(Contents(r.files))
    ensures var run := CachedRun(FullScan(first), listings);
            && |run| == |listings|
            && (listings[k][j].name in run[k].reloads
                <==> Contents(Before(first, listings, k)[i].files) != Contents(listings[k][j].files))
    decreases |listings|
  {
    var next := CachedScan(FullScan(first), listings[0]);
    CachedIsTrueExactly(FullScan(first), listings[0]);
    RunIsAsLong(next, listings[1..]);
    assert CachedRun(FullScan(first), listings)
        == [Differences(FullScan(first), next)] + CachedRun(next, listings[1..]);
    hide CachedRun, Contents, FullScan, CachedScan, Differences;
    if k == 0 {
      ReloadsOnChange(first, listings[0], i, j);
    } else {
      RunReloadsExactly(listings[0], listings[1..], k - 1, i, j);
    }
  }

  // ---------------------------------------------------------------- ignored files

  /** The file is one the watcher does not look at: something on its way, or its suffix in any case, is listed. */
  predicate Ignored(f: File) {
    || (exists part :: part in f.parts && part in IGNORED_NAMES)
    || exists s :: s in IGNORED_SUFFIXES && Lower(f.suffix) == s
  }

  lemma {:induction false} DigestAppend(a: seq<File>, b: seq<File>)
    ensures DigestOf(a + b) == DigestOf(a) + DigestOf(b)
    decreases |b|
  {
    if b == [] {
      assert a + b == a;
    } else {
      var init, f := b[..|b| - 1], b[|b| - 1];
      assert (a + b)[..|a + b| - 1] == a + init && (a + b)[|a + b| - 1] == f;
      DigestAppend(a, init);
      var piece := if !Counts(f) then "" else f.path + "\0" + if f.bytes.Some? then f.bytes.value + "\0" else "";
      assert DigestOf(b) == DigestOf(init) + piece && DigestOf(a + b) == DigestOf(a + init) + piece;
    }
  }

  lemma {:induction false} SignatureAppend(a: seq<File>, b: seq<File>)
    ensures SignatureOf(a + b) == SignatureOf(a) + SignatureOf(b)
    decreases |b|
  {
    if b == [] {
      assert a + b == a;
    } else {
      var init, f := b[..|b| - 1], b[|b| - 1];
      assert (a + b)[..|a + b| - 1] == a + init && (a + b)[|a + b| - 1] == f;
      SignatureAppend(a, init);
      var piece := if Counts(f) && f.stat.Some? then [(f.path, f.stat.value.0, f.stat.value.1)] else [];
      assert SignatureOf(b) == SignatureOf(init) + piece && SignatureOf(a + b) == SignatureOf(a + init) + piece;
    }
  }

  lemma OneFile(f: File)
    ensures DigestOf([f]) == if !Counts(f) then ""
        else f.path + "\0" + if f.bytes.Some? then f.bytes.value + "\0" else ""
    ensures SignatureOf([f])
            == if Counts(f) && f.stat.Some? then [(f.path, f.stat.value.0, f.stat.value.1)] else []
    ensures Counts(f) <==> !Ignored(f)
  {
    assert [f][..0] == [];
  }

  /** A file leaves the digest alone if and only if it is ignored; its size and time show unless they are unreadable. */
  lemma {:induction false} InvisibleExactly(a: seq<File>, f: File, b: seq<File>)
    ensures DigestOf(a + [f] + b) == DigestOf(a + b) <==> Ignored(f)
    ensures SignatureOf(a + [f] + b) == SignatureOf(a + b) <==> Ignored(f) || f.stat.None?
  {
    DigestAppend(a + [f], b);
    DigestAppend(a, [f]);
    DigestAppend(a, b);
    SignatureAppend(a + [f], b);
    SignatureAppend(a, [f]);
    SignatureAppend(a, b);
    OneFile(f);
    hide DigestOf, SignatureOf, Ignored, Counts;
    assert |DigestOf(a + [f] + b)| == |DigestOf(a + b)| + |DigestOf([f])|;
    assert |SignatureOf(a + [f] + b)| == |SignatureOf(a + b)| + |SignatureOf([f])|;
    if DigestOf([f]) == "" { assert DigestOf(a) + "" == DigestOf(a); }
    if SignatureOf([f]) == [] { assert SignatureOf(a) + [] == SignatureOf(a); }
  }
}
