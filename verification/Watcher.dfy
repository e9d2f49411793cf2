/** `PluginWatcher` of `src/userbot/watcher.py`: scans that hash only what changed, and what a tick does about it. */
module Watcher {
  import opened Text

  const IGNORED_NAMES := {"__pycache__", ".git", ".venv", "venv", "node_modules", ".mypy_cache"}
  const IGNORED_SUFFIXES := {".pyc", ".pyo", ".pyd", ".log", ".sqlite3", ".session"}

  /** A file below a plugin directory; its size and time, or its bytes, may be unreadable. */
  datatype File = File(parts: seq<string>, suffix: string, path: string, stat: Option<(int, int)>,
      bytes: Option<string>)

  /** An entry of the plugin directory, with its files in the order of their paths. */
  datatype Path = Path(name: string, isDir: bool, hasManifest: bool, files: seq<File>)

  type Signature = seq<(string, int, int)>

  /** The digest is modelled by the stream that is fed to it: paths and contents, each closed by a NUL. */
  datatype Entry = Entry(signature: Signature, digest: Option<string>)

  type Snapshot = map<string, Entry>

  predicate Counts(f: File) {
    (forall p :: p in f.parts ==> p !in IGNORED_NAMES) && Lower(f.suffix) !in IGNORED_SUFFIXES
  }

  function SignatureOf(files: seq<File>): Signature {
    if files == [] then []
    else
      var init, f := files[..|files| - 1], files[|files| - 1];
      SignatureOf(init) + if Counts(f) && f.stat.Some? then [(f.path, f.stat.value.0, f.stat.value.1)] else []
  }

  function DigestOf(files: seq<File>): string {
    if files == [] then ""
    else
      var init, f := files[..|files| - 1], files[|files| - 1];
      DigestOf(init) + if !Counts(f) then "" else f.path + "\0" + if f.bytes.Some? then f.bytes.value + "\0" else ""
  }

  predicate IsPlugin(p: Path) {
    p.isDir && p.hasManifest
  }

  /** What hashing everything would record for a plugin. */
  function TrueEntry(p: Path): Entry {
    Entry(SignatureOf(p.files), Some(DigestOf(p.files)))
  }

  function FullScan(paths: seq<Path>): Snapshot {
    if paths == [] then map[]
    else
      var init, p := paths[..|paths| - 1], paths[|paths| - 1];
      if IsPlugin(p) then FullScan(init)[p.name := TrueEntry(p)] else FullScan(init)
  }

  /** What the watcher records: the previous entry if its signature still matches. */
  function CachedEntry(previous: Snapshot, p: Path): Entry {
    if p.name in previous && previous[p.name].signature == SignatureOf(p.files) then previous[p.name] else TrueEntry(p)
  }

  function CachedScan(previous: Snapshot, paths: seq<Path>): Snapshot {
    if paths == [] then map[]
    else
      var init, p := paths[..|paths| - 1], paths[|paths| - 1];
      if IsPlugin(p) then CachedScan(previous, init)[p.name := CachedEntry(previous, p)] else CachedScan(previous, init)
  }

  // ---------------------------------------------------------------- the loops

  method ComputeSignature(files: seq<File>) returns (s: Signature)
    ensures s == SignatureOf(files)
  {
    s := [];
    for i := 0 to |files|
      invariant s == SignatureOf(files[..i])
    {
      assert files[..i + 1][..i] == files[..i];
      if Counts(files[i]) && files[i].stat.Some? {
          s := s + [(files[i].path, files[i].stat.value.0, files[i].stat.value.1)]; }
    }
    assert files[..|files|] == files;
  }

  method ComputeDigest(files: seq<File>) returns (d: string)
    ensures d == DigestOf(files)
  {
    d := "";
    for i := 0 to |files|
      invariant d == DigestOf(files[..i])
    {
      assert files[..i + 1][..i] == files[..i];
      if Counts(files[i]) {
        d := d + (files[i].path + "\0" + if files[i].bytes.Some? then files[i].bytes.value + "\0" else "");
      }
    }
    assert files[..|files|] == files;
  }

  /** One turn of the scan: hash only if the signature moved, and keep the old digest if the bytes did not. */
  method ScanOne(previous: Snapshot, p: Path) returns (e: Entry)
    ensures e == CachedEntry(previous, p)
  {
    var signature := ComputeSignature(p.files);
    if p.name in previous && previous[p.name].signature == signature { return previous[p.name]; }
    var candidate := ComputeDigest(p.files);
    if p.name !in previous || previous[p.name].digest.None? {
      e := Entry(signature, Some(candidate));
    } else if previous[p.name].digest == Some(candidate) {
      e := Entry(signature, previous[p.name].digest);
    } else {
      e := Entry(signature, Some(candidate));
    }
  }

  method Scan(previous: Snapshot, paths: seq<Path>) returns (result: Snapshot)
    ensures result == CachedScan(previous, paths)
  {
    result := map[];
    for i := 0 to |paths|
      invariant result == CachedScan(previous, paths[..i])
    {
      assert paths[..i + 1][..i] == paths[..i];
      if !paths[i].isDir || !paths[i].hasManifest { continue; }
      var e := ScanOne(previous, paths[i]);
      result := result[paths[i].name := e];
    }
    assert paths[..|paths|] == paths;
  }

  // ---------------------------------------------------------------- cached against full

  /** A plugin whose signature stayed the same while what the digest is fed did not. */
  predicate Unseen(before: Snapshot, p: Path) {
    && IsPlugin(p) && p.name in before
    && before[p.name].signature == SignatureOf(p.files) && before[p.name].digest != Some(DigestOf(p.files))
  }

  predicate NamesDiffer(paths: seq<Path>) {
    forall i, j :: 0 <= i < j < |paths| ==> paths[i].name != paths[j].name
  }

  /** Entries of a listing sit under the name of the plugin they describe. */
  lemma {:induction false} ScansAt(previous: Snapshot, paths: seq<Path>, i: nat)
    requires NamesDiffer(paths) && i < |paths| && IsPlugin(paths[i])
    ensures paths[i].name in FullScan(paths) && FullScan(paths)[paths[i].name] == TrueEntry(paths[i])
    ensures paths[i].name in CachedScan(previous, paths)
            && CachedScan(previous, paths)[paths[i].name] == CachedEntry(previous, paths[i])
    decreases |paths|
  {
    if i < |paths| - 1 { ScansAt(previous, paths[..|paths| - 1], i); }
  }

  lemma {:induction false} ScansOnlyPlugins(previous: Snapshot, paths: seq<Path>)
    ensures FullScan(paths).Keys == CachedScan(previous, paths).Keys
    ensures forall n :: n in FullScan(paths) ==>
              exists i :: 0 <= i < |paths| && IsPlugin(paths[i]) && paths[i].name == n
    decreases |paths|
  {
    if paths != [] {
      var init, p := paths[..|paths| - 1], paths[|paths| - 1];
      ScansOnlyPlugins(previous, init);
      forall n | n in FullScan(paths)
        ensures exists i :: 0 <= i < |paths| && IsPlugin(paths[i]) && paths[i].name == n
      {
        if n in FullScan(init) {
          var i :| 0 <= i < |init| && IsPlugin(init[i]) && init[i].name == n;
          assert paths[i].name == n;
        } else {
          assert paths[|paths| - 1].name == n;
        }
      }
    }
  }

  /** The cached scan records the truth exactly when no plugin changed its digest behind an unchanged signature. */
  lemma CachedIsTrueExactly(previous: Snapshot, paths: seq<Path>)
    requires NamesDiffer(paths)
    ensures CachedScan(previous, paths) == FullScan(paths)
            <==> forall i :: 0 <= i < |paths| ==> !Unseen(previous, paths[i])
  {
    var cached, full := CachedScan(previous, paths), FullScan(paths);
    ScansOnlyPlugins(previous, paths);
    if cached == full {
      forall i | 0 <= i < |paths| ensures !Unseen(previous, paths[i]) {
        if IsPlugin(paths[i]) { ScansAt(previous, paths, i); }
      }
    }
    if forall i :: 0 <= i < |paths| ==> !Unseen(previous, paths[i]) {
      forall n | n in full ensures cached[n] == full[n] {
        var i :| 0 <= i < |paths| && IsPlugin(paths[i]) && paths[i].name == n;
        ScansAt(previous, paths, i);
      }
    }
  }

  // ---------------------------------------------------------------- whole runs

  /** What a tick asks of the manager. */
  datatype Actions = Actions(loads: set<string>, unloads: set<string>, reloads: set<string>)

  function Differences(previous: Snapshot, current: Snapshot): Actions {
    Actions(current.Keys - previous.Keys, previous.Keys - current.Keys,
            set n | n in current && n in previous && current[n].digest != previous[n].digest)
  }

  function CachedRun(snapshot: Snapshot, listings: seq<seq<Path>>): seq<Actions>
    decreases |listings|
  {
    if listings == [] then []
    else
      var current := CachedScan(snapshot, listings[0]);
      [Differences(snapshot, current)] + CachedRun(current, listings[1..])
  }

  /** A watcher that keeps nothing but the digests of the last listing and hashes every file every time. */
  function FullRun(last: seq<Path>, listings: seq<seq<Path>>): seq<Actions>
    decreases |listings|
  {
    if listings == [] then []
    else [Differences(FullScan(last), FullScan(listings[0]))] + FullRun(listings[0], listings[1..])
  }

  /** Between one listing and the next, equal signatures mean equal digests. */
  ghost predicate Faithful(last: seq<Path>, listings: seq<seq<Path>>)
    decreases |listings|
  {
    listings != [] ==>
      && NamesDiffer(listings[0])
      && (forall i :: 0 <= i < |listings[0]| ==> !Unseen(FullScan(last), listings[0][i]))
      && Faithful(listings[0], listings[1..])
  }

  /**
   * Over any run of ticks the cached watcher asks for the same loads, unloads and reloads as the one
   * that hashes everything.
   */
  lemma {:induction false} CachedRefinesFull(last: seq<Path>, listings: seq<seq<Path>>)
    requires Faithful(last, listings)
    ensures CachedRun(FullScan(last), listings) == FullRun(last, listings)
    decreases |listings|
  {
    if listings != [] {
      CachedIsTrueExactly(FullScan(last), listings[0]);
      CachedRefinesFull(listings[0], listings[1..]);
    }
  }

  /** A plugin is reloaded exactly when its digest changed: a touch alone never does it. */
  lemma {:induction false} ReloadsExactly(before: seq<Path>, after: seq<Path>, i: nat, j: nat)
    requires NamesDiffer(before) && NamesDiffer(after) && i < |before| && j < |after|
    requires before[i].name == after[j].name && IsPlugin(before[i]) && IsPlugin(after[j])
    requires !Unseen(FullScan(before), after[j])
    ensures after[j].name in Differences(FullScan(before), CachedScan(FullScan(before), after)).reloads
            <==> DigestOf(before[i].files) != DigestOf(after[j].files)
  {
    ScansAt(map[], before, i);
    ScansAt(FullScan(before), after, j);
  }

  // ---------------------------------------------------------------- what a digest tells

  /** The files that count, by path and content. */
  function Contents(files: seq<File>): seq<(string, Option<string>)> {
    if files == [] then []
    else
      var init, f := files[..|files| - 1], files[|files| - 1];
      Contents(init) + if Counts(f) then [(f.path, f.bytes)] else []
  }

  predicate NoNul(s: string) {
    '\0' !in s
  }

  /** Everything that counts is readable, and no path and no content has a NUL in it. */
  predicate Plain(contents: seq<(string, Option<string>)>) {
    forall i :: 0 <= i < |contents| ==>
      NoNul(contents[i].0) && contents[i].1.Some? && NoNul(contents[i].1.value)
  }

  function Fed(contents: seq<(string, Option<string>)>): string {
    if contents == [] then ""
    else
      var c := contents[0];
      c.0 + "\0" + (if c.1.Some? then c.1.value + "\0" else "") + Fed(contents[1..])
  }

  lemma {:induction false} FedAppend(a: seq<(string, Option<string>)>, c: (string, Option<string>))
    ensures Fed(a + [c]) == Fed(a) + (c.0 + "\0" + if c.1.Some? then c.1.value + "\0" else "")
  {
    if a == [] {
      var piece := c.0 + "\0" + if c.1.Some? then c.1.value + "\0" else "";
      assert a + [c] == [c] && [c][1..] == [] && Fed([c]) == piece + "" && "" + piece == piece;
    } else {
      assert (a + [c])[1..] == a[1..] + [c];
      FedAppend(a[1..], c);
    }
  }

  lemma {:induction false} DigestIsFed(files: seq<File>)
    ensures DigestOf(files) == Fed(Contents(files))
    decreases |files|
  {
    if files != [] {
      var init, f := files[..|files| - 1], files[|files| - 1];
      DigestIsFed(init);
      if Counts(f) {
        FedAppend(Contents(init), (f.path, f.bytes));
      } else {
        assert DigestOf(init) + "" == DigestOf(init) && Contents(init) + [] == Contents(init);
      }
    }
  }

  /** A piece without a NUL is read off the stream up to the first one. */
  lemma FirstPiece(a: string, b: string, rest: string, other: string)
    requires NoNul(a) && NoNul(b) && a + "\0" + rest == b + "\0" + other
    ensures a == b && rest == other
  {
    var s, t := a + "\0" + rest, b + "\0" + other;
    assert s[|a|] == '\0' && t[|b|] == '\0';
    assert forall k :: 0 <= k < |a| ==> s[k] == a[k] && a[k] != '\0';
    assert forall k :: 0 <= k < |b| ==> t[k] == b[k] && b[k] != '\0';
    assert |a| == |b|;
    assert a == s[..|a|] && b == t[..|b|];
    assert rest == s[|a| + 1..] && other == t[|b| + 1..];
  }

  /** Equal streams of readable files without NULs come from equal files. */
  lemma {:induction false} FedOnce(a: seq<(string, Option<string>)>, b: seq<(string, Option<string>)>)
    requires Plain(a) && Plain(b) && Fed(a) == Fed(b)
    ensures a == b
    decreases |a|
  {
    if a != [] && b != [] {
      var c, d := a[0], b[0];
      var resta, restb := c.1.value + "\0" + Fed(a[1..]), d.1.value + "\0" + Fed(b[1..]);
      assert Fed(a) == c.0 + "\0" + resta && Fed(b) == d.0 + "\0" + restb;
      FirstPiece(c.0, d.0, resta, restb);
      FirstPiece(c.1.value, d.1.value, Fed(a[1..]), Fed(b[1..]));
      FedOnce(a[1..], b[1..]);
      assert a == [a[0]] + a[1..] && b == [b[0]] + b[1..];
    }
  }

  /**
   * Readable files without NULs are reloaded exactly when a path or a content among those that count
   * changed, came or went.
   */
  lemma {:induction false} ReloadsOnChange(before: seq<Path>, after: seq<Path>, i: nat, j: nat)
    requires NamesDiffer(before) && NamesDiffer(after) && i < |before| && j < |after|
    requires before[i].name == after[j].name && IsPlugin(before[i]) && IsPlugin(after[j])
    requires !Unseen(FullScan(before), after[j])
    requires Plain(Contents(before[i].files)) && Plain(Contents(after[j].files))
    ensures after[j].name in Differences(FullScan(before), CachedScan(FullScan(before), after)).reloads
            <==> Contents(before[i].files) != Contents(after[j].files)
  {
    ReloadsExactly(before, after, i, j);
    DigestIsFed(before[i].files);
    DigestIsFed(after[j].files);
    if Fed(Contents(before[i].files)) == Fed(Contents(after[j].files)) {
      FedOnce(Contents(before[i].files), Contents(after[j].files));
    }
  }

  /** The file that holds what the stream has between the first path and the last NUL of these two. */
  function Swallowing(f: File, g: File): File
    requires f.bytes.Some? && g.bytes.Some?
  {
    f.(bytes := Some(f.bytes.value + "\0" + (g.path + "\0" + g.bytes.value)))
  }

  /** Without that condition a change can be missed: one file with NULs in it feeds the digest what two files do. */
  lemma {:induction false} DifferentFilesCanFeedTheSame(f: File, g: File)
    requires Counts(f) && Counts(g) && f.stat.Some? && g.stat.Some? && f.bytes.Some? && g.bytes.Some?
    ensures var one, two := [Swallowing(f, g)], [f, g];
            && Contents(one) != Contents(two) && SignatureOf(one) != SignatureOf(two)
            && DigestOf(one) == DigestOf(two)
  {
    var long := Swallowing(f, g);
    assert [] + [long] == [long] && [] + [f] == [f] && [f] + [g] == [f, g];
    DigestsOf([], long);
    DigestsOf([], f);
    DigestsOf([f], g);
    assert "" + (f.path + "\0" + (long.bytes.value + "\0"))
        == "" + (f.path + "\0" + (f.bytes.value + "\0")) + (g.path + "\0" + (g.bytes.value + "\0"));
  }

  lemma DigestsOf(files: seq<File>, f: File)
    requires Counts(f) && f.stat.Some? && f.bytes.Some?
    ensures DigestOf(files + [f]) == DigestOf(files) + (f.path + "\0" + (f.bytes.value + "\0"))
    ensures Contents(files + [f]) == Contents(files) + [(f.path, f.bytes)]
    ensures SignatureOf(files + [f]) == SignatureOf(files) + [(f.path, f.stat.value.0, f.stat.value.1)]
  {
    assert (files + [f])[..|files|] == files;
  }

  /** A change of the digest behind an unchanged signature goes unnoticed. */
  lemma UnseenIsMissed(before: Snapshot, after: seq<Path>, j: nat)
    requires NamesDiffer(after) && j < |after| && Unseen(before, after[j])
    ensures after[j].name !in Differences(before, CachedScan(before, after)).reloads
  {
    ScansAt(before, after, j);
  }

  // ---------------------------------------------------------------- the watcher

  class PluginWatcher {
    var snapshot: Snapshot
    var scanCount: nat
    var reloadCount: nat

    /** `start`: the first scan is only recorded. */
    constructor (paths: seq<Path>)
      ensures snapshot == CachedScan(map[], paths) && scanCount == 0 && reloadCount == 0
    {
      scanCount, reloadCount := 0, 0;
      new;
      var first := Scan(map[], paths);
      snapshot := first;
    }

    /** `fails` are the requests the manager does not carry out; they are logged and not counted. */
    method Tick(paths: seq<Path>, fails: Actions) returns (actions: Actions)
      modifies this
      ensures snapshot == CachedScan(old(snapshot), paths)
      ensures actions == Differences(old(snapshot), snapshot)
      ensures scanCount == old(scanCount) + 1
      ensures reloadCount == old(reloadCount) + |actions.loads - fails.loads| + |actions.unloads - fails.unloads|
                             + |actions.reloads - fails.reloads|
    {
      var current := Scan(snapshot, paths);
      scanCount := scanCount + 1;
      var previous := snapshot;
      if current == previous { return Actions({}, {}, {}); }
      snapshot := current;
      actions := Differences(previous, current);
      reloadCount := reloadCount + |actions.loads - fails.loads|;
      reloadCount := reloadCount + |actions.unloads - fails.unloads|;
      reloadCount := reloadCount + |actions.reloads - fails.reloads|;
    }
  }
}
