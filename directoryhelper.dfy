/**
 * `DirectoryHelper::removeDirectory`: best-effort recursive deletion. Every
 * entry of a directory is handled in the order the tree lists it
 * (subdirectories first recursively, files by `unlink`), then the directory
 * itself is removed with `rmdir`, which succeeds only on an empty
 * directory that is not locked.
 * Every failed `unlink` or `rmdir` is reported by one warning. Every
 * directory of the tree can be listed, so `scandir` never fails here and
 * nothing is thrown.
 */
module DirectoryHelper {
  import opened Prelude
  import opened FileTree
  import opened Host

  /** Where warnings go: `$io->warning(...)`, or `print($msg . PHP_EOL)` when there is no `$io`. */
  datatype Sink = Io | Stdout(eol: String)

  function FileWarning(p: Path): String {
    "Warning: Could not delete file: " + Show(p) + ". Please check permissions."
  }

  function DirWarning(p: Path): String {
    "Warning: Could not remove directory: " + Show(p) + ". Please check permissions."
  }

  function Report(sink: Sink, msg: String): Event {
    match sink
    case Io => Said(Warning, msg)
    case Stdout(eol) => Printed(msg + eol)
  }

  predicate IsAttempt(e: Event) {
    e.Unlink? || e.Rmdir?
  }

  predicate IsFailure(e: Event) {
    IsAttempt(e) && !e.ok
  }

  predicate IsWarning(e: Event) {
    (e.Said? && e.level == Warning) || e.Printed?
  }

  /** The warning a failed `unlink` or `rmdir` of `e.path` produces. */
  function WarningFor(sink: Sink, e: Event): Event
    requires IsAttempt(e)
  {
    if e.Unlink? then Report(sink, FileWarning(e.path)) else Report(sink, DirWarning(e.path))
  }

  // ---------------------------------------------------------------------
  // The walk, on the tree found at the start.

  /**
   * Removing the node `n` found at `at`: what is left of it (nothing, when
   * everything could be removed), and the attempts and warnings, in order.
   */
  function Erase(at: Path, n: Node, sink: Sink): (Option<Node>, seq<Event>)
    decreases n, 1
  {
    match n
    case File(_, locked) =>
      if locked then (Some(n), [Unlink(at, false), Report(sink, FileWarning(at))])
      else (None, [Unlink(at, true)])
    case Dir(es, locked) =>
      var inner := EraseFirst(at, n, |es|, sink);
      if inner.0 == [] && !locked then (None, inner.1 + [Rmdir(at, true)])
      else (Some(Dir(inner.0, locked)), inner.1 + [Rmdir(at, false), Report(sink, DirWarning(at))])
  }

  /** The `foreach` over the first `i` entries of the directory `d`: the entries left, and the events. */
  function EraseFirst(at: Path, d: Node, i: nat, sink: Sink): (seq<Entry>, seq<Event>)
    requires d.Dir? && i <= |d.entries|
    decreases d, 0, i
  {
    if i == 0 then ([], [])
    else
      var before := EraseFirst(at, d, i - 1, sink);
      var e := d.entries[i - 1];
      var here := Erase(at + [e.name], e.node, sink);
      (before.0 + (if here.0.Some? then [Entry(e.name, here.0.value)] else []), before.1 + here.1)
  }

  /** `removeDirectory($path, $io)` on worlds. */
  function RemoveSpec(w: World, path: Path, sink: Sink): World
    requires |path| > 0
  {
    if !IsDir(w.fs, path) then w
    else
      var erased := Erase(path, Get(w.fs, path).value, sink);
      SetExisting(w.fs, path, erased.0);
      World(Set(w.fs, path, erased.0).value, w.log + erased.1)
  }

  // ---------------------------------------------------------------------
  // The walk as the source performs it.

  method EraseTree(h: Host, at: Path, n: Node, sink: Sink) returns (rest: Option<Node>)
    modifies h
    ensures h.fs == old(h.fs)
    ensures rest == Erase(at, n, sink).0 && h.log == old(h.log) + Erase(at, n, sink).1
    decreases n, 1
  {
    match n
    case File(_, locked) =>
      h.Emit(Unlink(at, !locked));
      if locked {
        h.Emit(Report(sink, FileWarning(at)));
        assert h.log == old(h.log) + [Unlink(at, false), Report(sink, FileWarning(at))];
        rest := Some(n);
      } else {
        rest := None;
      }
    case Dir(es, locked) =>
      var kept := EraseEntries(h, at, n, sink);
      ghost var events := EraseFirst(at, n, |es|, sink).1;
      var removed := kept == [] && !locked;
      h.Emit(Rmdir(at, removed));
      if removed {
        rest := None;
      } else {
        h.Emit(Report(sink, DirWarning(at)));
        assert h.log == old(h.log) + (events + [Rmdir(at, false), Report(sink, DirWarning(at))]);
        rest := Some(Dir(kept, locked));
      }
  }

  /** The `foreach` over the entries of the directory `d`, in the order the tree lists them. */
  method EraseEntries(h: Host, at: Path, d: Node, sink: Sink) returns (kept: seq<Entry>)
    requires d.Dir?
    modifies h
    ensures h.fs == old(h.fs)
    ensures kept == EraseFirst(at, d, |d.entries|, sink).0
    ensures h.log == old(h.log) + EraseFirst(at, d, |d.entries|, sink).1
    decreases d, 0
  {
    var es := d.entries;
    kept := [];
    var i := 0;
    while i < |es|
      invariant 0 <= i <= |es|
      invariant h.fs == old(h.fs)
      invariant kept == EraseFirst(at, d, i, sink).0
      invariant h.log == old(h.log) + EraseFirst(at, d, i, sink).1
    {
      ghost var before := h.log;
      var r := EraseTree(h, at + [es[i].name], es[i].node, sink);
      assert h.log == old(h.log) + (EraseFirst(at, d, i, sink).1 + Erase(at + [es[i].name], es[i].node, sink).1) by {
        assert h.log == before + Erase(at + [es[i].name], es[i].node, sink).1;
      }
      if r.Some? {
        kept := kept + [Entry(es[i].name, r.value)];
      }
      i := i + 1;
    }
  }

  method RemoveDirectory(h: Host, path: Path, sink: Sink)
    requires |path| > 0
    modifies h
    ensures h.State() == RemoveSpec(old(h.State()), path, sink)
  {
    if IsDir(h.fs, path) {
      var rest := EraseTree(h, path, Get(h.fs, path).value, sink);
      h.Replace(path, rest);
    }
  }

  // ---------------------------------------------------------------------
  // Properties of the walk.

  /** The paths visited, children before their directory (a reference definition). */
  function PostOrder(at: Path, n: Node): seq<Path>
    decreases n, 1
  {
    match n
    case File(_, _) => [at]
    case Dir(es, _) => PostOrderFirst(at, n, |es|) + [at]
  }

  function PostOrderFirst(at: Path, d: Node, i: nat): seq<Path>
    requires d.Dir? && i <= |d.entries|
    decreases d, 0, i
  {
    if i == 0 then []
    else PostOrderFirst(at, d, i - 1) + PostOrder(at + [d.entries[i - 1].name], d.entries[i - 1].node)
  }

  /** The paths of the `unlink` and `rmdir` attempts, in order. */
  function Attempts(events: seq<Event>): seq<Path>
    decreases |events|
  {
    if |events| == 0 then []
    else
      var e := events[|events| - 1];
      Attempts(events[..|events| - 1]) + (if IsAttempt(e) then [e.path] else [])
  }

  lemma {:induction false} AttemptsConcat(a: seq<Event>, b: seq<Event>)
    ensures Attempts(a + b) == Attempts(a) + Attempts(b)
    decreases |b|
  {
    if |b| == 0 {
      assert a + b == a;
    } else {
      assert (a + b)[..|a + b| - 1] == a + b[..|b| - 1];
      AttemptsConcat(a, b[..|b| - 1]);
    }
  }

  lemma AttemptsOfWarned(e: Event, sink: Sink)
    requires IsAttempt(e)
    ensures Attempts([e, WarningFor(sink, e)]) == [e.path]
  {
    var two := [e, WarningFor(sink, e)];
    assert two[..1] == [e];
    assert [e][..0] == [];
    assert Attempts([e]) == [e.path];
    assert !IsAttempt(two[1]);
    assert Attempts(two) == Attempts(two[..1]);
  }

  /** Every entry is visited, and each directory only after everything in it. */
  lemma {:induction false} EraseInPostOrder(at: Path, n: Node, sink: Sink)
    ensures Attempts(Erase(at, n, sink).1) == PostOrder(at, n)
    decreases n, 1
  {
    match n
    case File(_, locked) =>
      if locked {
        assert Attempts([Unlink(at, false)]) == [at];
      }
    case Dir(es, locked) =>
      var events := EraseFirst(at, n, |es|, sink).1;
      EraseFirstInPostOrder(at, n, |es|, sink);
      if EraseFirst(at, n, |es|, sink).0 == [] && !locked {
        AttemptsConcat(events, [Rmdir(at, true)]);
        assert Attempts([Rmdir(at, true)]) == [at] by {
          assert [Rmdir(at, true)][..0] == [];
        }
      } else {
        var tail := [Rmdir(at, false), Report(sink, DirWarning(at))];
        AttemptsConcat(events, tail);
        AttemptsOfWarned(Rmdir(at, false), sink);
      }
  }

  lemma {:induction false} EraseFirstInPostOrder(at: Path, d: Node, i: nat, sink: Sink)
    requires d.Dir? && i <= |d.entries|
    ensures Attempts(EraseFirst(at, d, i, sink).1) == PostOrderFirst(at, d, i)
    decreases d, 0, i
  {
    if i > 0 {
      var e := d.entries[i - 1];
      EraseFirstInPostOrder(at, d, i - 1, sink);
      EraseInPostOrder(at + [e.name], e.node, sink);
      AttemptsConcat(EraseFirst(at, d, i - 1, sink).1, Erase(at + [e.name], e.node, sink).1);
    }
  }

  /**
   * Each failed attempt is followed at once by the one warning naming its
   * path, every warning is such a follower, and nothing else is emitted.
   */
  ghost predicate Paired(events: seq<Event>, sink: Sink) {
    (forall i :: 0 <= i < |events| ==> IsAttempt(events[i]) || IsWarning(events[i])) &&
    (forall i :: 0 <= i < |events| && IsFailure(events[i]) ==>
      i + 1 < |events| && events[i + 1] == WarningFor(sink, events[i])) &&
    (forall i :: 0 <= i < |events| && IsWarning(events[i]) ==> 0 < i && IsFailure(events[i - 1]))
  }

  lemma PairedConcat(a: seq<Event>, b: seq<Event>, sink: Sink)
    requires Paired(a, sink) && Paired(b, sink)
    ensures Paired(a + b, sink)
  {
    var ab := a + b;
    forall i | 0 <= i < |ab| && IsFailure(ab[i])
      ensures i + 1 < |ab| && ab[i + 1] == WarningFor(sink, ab[i])
    {
      if i < |a| {
        assert IsFailure(a[i]);
      } else {
        assert ab[i] == b[i - |a|];
      }
    }
    forall i | 0 <= i < |ab| && IsWarning(ab[i])
      ensures 0 < i && IsFailure(ab[i - 1])
    {
      if i < |a| {
        assert IsWarning(a[i]);
      } else {
        var j := i - |a|;
        assert IsWarning(b[j]);
        assert ab[i - 1] == b[j - 1];
      }
    }
  }

  lemma PairedOfWarned(e: Event, sink: Sink)
    requires IsFailure(e)
    ensures Paired([e, WarningFor(sink, e)], sink)
  {
  }

  /** Exactly one warning per failed `unlink` or `rmdir`, right after it. */
  lemma {:induction false} EraseWarnsPairwise(at: Path, n: Node, sink: Sink)
    ensures Paired(Erase(at, n, sink).1, sink)
    decreases n, 1
  {
    match n
    case File(_, locked) =>
      if locked {
        PairedOfWarned(Unlink(at, false), sink);
      }
    case Dir(es, locked) =>
      var events := EraseFirst(at, n, |es|, sink).1;
      EraseFirstWarnsPairwise(at, n, |es|, sink);
      if EraseFirst(at, n, |es|, sink).0 == [] && !locked {
        PairedConcat(events, [Rmdir(at, true)], sink);
      } else {
        PairedOfWarned(Rmdir(at, false), sink);
        PairedConcat(events, [Rmdir(at, false), Report(sink, DirWarning(at))], sink);
      }
  }

  lemma {:induction false} EraseFirstWarnsPairwise(at: Path, d: Node, i: nat, sink: Sink)
    requires d.Dir? && i <= |d.entries|
    ensures Paired(EraseFirst(at, d, i, sink).1, sink)
    decreases d, 0, i
  {
    if i > 0 {
      var e := d.entries[i - 1];
      EraseFirstWarnsPairwise(at, d, i - 1, sink);
      EraseWarnsPairwise(at + [e.name], e.node, sink);
      PairedConcat(EraseFirst(at, d, i - 1, sink).1, Erase(at + [e.name], e.node, sink).1, sink);
    }
  }

  /** How many nodes of the tree are locked. */
  function Locks(n: Node): nat
    decreases n, 1
  {
    (if n.locked then 1 else 0) + (match n case File(_, _) => 0 case Dir(es, _) => LocksFirst(n, |es|))
  }

  function LocksFirst(d: Node, i: nat): nat
    requires d.Dir? && i <= |d.entries|
    decreases d, 0, i
  {
    if i == 0 then 0 else LocksFirst(d, i - 1) + Locks(d.entries[i - 1].node)
  }

  /**
   * When nothing is locked every `unlink` and `rmdir` succeeds, nothing is
   * left and there is no warning; when something is locked, part of the
   * tree stays.
   */
  lemma {:induction false} EraseUnlocked(at: Path, n: Node, sink: Sink)
    ensures Erase(at, n, sink).0.None? <==> Locks(n) == 0
    ensures Locks(n) == 0 ==> Count(IsFailure, Erase(at, n, sink).1) == 0
    ensures Locks(n) == 0 ==> Count(IsWarning, Erase(at, n, sink).1) == 0
    decreases n, 1
  {
    match n
    case File(_, locked) =>
      if !locked {
        assert [Unlink(at, true)][..0] == [];
      }
    case Dir(es, locked) =>
      EraseFirstUnlocked(at, n, |es|, sink);
      var events := EraseFirst(at, n, |es|, sink).1;
      if Locks(n) == 0 {
        CountConcat(IsFailure, events, [Rmdir(at, true)]);
        CountConcat(IsWarning, events, [Rmdir(at, true)]);
        assert [Rmdir(at, true)][..0] == [];
      }
  }

  lemma {:induction false} EraseFirstUnlocked(at: Path, d: Node, i: nat, sink: Sink)
    requires d.Dir? && i <= |d.entries|
    ensures EraseFirst(at, d, i, sink).0 == [] <==> LocksFirst(d, i) == 0
    ensures LocksFirst(d, i) == 0 ==> Count(IsFailure, EraseFirst(at, d, i, sink).1) == 0
    ensures LocksFirst(d, i) == 0 ==> Count(IsWarning, EraseFirst(at, d, i, sink).1) == 0
    decreases d, 0, i
  {
    if i > 0 {
      var e := d.entries[i - 1];
      EraseFirstUnlocked(at, d, i - 1, sink);
      EraseUnlocked(at + [e.name], e.node, sink);
      CountConcat(IsFailure, EraseFirst(at, d, i - 1, sink).1, Erase(at + [e.name], e.node, sink).1);
      CountConcat(IsWarning, EraseFirst(at, d, i - 1, sink).1, Erase(at + [e.name], e.node, sink).1);
    }
  }

  /** The events of one entry are among the events of the whole directory. */
  lemma {:induction false} EraseFirstIncludes(at: Path, d: Node, i: nat, k: nat, sink: Sink)
    requires d.Dir? && k < i <= |d.entries|
    ensures var e := d.entries[k];
      forall x :: x in Erase(at + [e.name], e.node, sink).1 ==> x in EraseFirst(at, d, i, sink).1
    ensures Erase(at + [d.entries[k].name], d.entries[k].node, sink).0.Some? ==> EraseFirst(at, d, i, sink).0 != []
    decreases i
  {
    if k < i - 1 {
      EraseFirstIncludes(at, d, i - 1, k, sink);
    }
  }

  /**
   * A locked file is reported, and so is every directory on the way to it:
   * none of them is empty when its `rmdir` comes.
   */
  lemma {:induction false} LockedFileAncestors(at: Path, n: Node, q: Path, content: String, sink: Sink)
    requires Get(n, q) == Some(File(content, true))
    ensures Erase(at, n, sink).0.Some?
    ensures Unlink(at + q, false) in Erase(at, n, sink).1
    ensures forall j :: 0 <= j < |q| ==> Rmdir(at + q[..j], false) in Erase(at, n, sink).1
    decreases |q|
  {
    if |q| == 0 {
      assert at + q == at;
    } else {
      var es := n.entries;
      var k := Find(es, q[0]).value;
      var child := at + [q[0]];
      LockedFileAncestors(child, es[k].node, q[1..], content, sink);
      EraseFirstIncludes(at, n, |es|, k, sink);
      assert child + q[1..] == at + q;
      AncestorsOfChild(at, q, Erase(at, n, sink).1, Erase(child, es[k].node, sink).1);
    }
  }

  /** The directories on the way to `at + q`: `at` itself, and those on the way from its child `q[0]`. */
  lemma AncestorsOfChild(at: Path, q: Path, events: seq<Event>, inner: seq<Event>)
    requires |q| > 0 && Rmdir(at, false) in events
    requires forall x :: x in inner ==> x in events
    requires forall j :: 0 <= j < |q| - 1 ==> Rmdir(at + [q[0]] + q[1..][..j], false) in inner
    ensures forall j :: 0 <= j < |q| ==> Rmdir(at + q[..j], false) in events
  {
    forall j | 0 <= j < |q|
      ensures Rmdir(at + q[..j], false) in events
    {
      if j == 0 {
        assert at + q[..0] == at;
      } else {
        assert at + [q[0]] + q[1..][..j - 1] == at + q[..j];
      }
    }
  }

  // ---------------------------------------------------------------------
  // Properties of `removeDirectory` on worlds.

  /** A path that is not a directory is left alone, with no warning. */
  lemma RemoveNotDir(w: World, path: Path, sink: Sink)
    requires |path| > 0 && !IsDir(w.fs, path)
    ensures RemoveSpec(w, path, sink) == w
  {
  }

  /**
   * With nothing locked the whole tree, `path` included, is gone and no
   * warning is emitted.
   */
  lemma RemoveUnlocked(w: World, path: Path, sink: Sink)
    requires |path| > 0 && IsDir(w.fs, path) && Locks(Get(w.fs, path).value) == 0
    ensures var w' := RemoveSpec(w, path, sink);
      !Exists(w'.fs, path) && w.log <= w'.log && Count(IsWarning, w'.log[|w.log|..]) == 0
  {
    var n := Get(w.fs, path).value;
    var events := Erase(path, n, sink).1;
    var w' := RemoveSpec(w, path, sink);
    assert w'.log == w.log + events;
    assert w'.log[|w.log|..] == events;
    EraseUnlocked(path, n, sink);
    assert Erase(path, n, sink).0 == None;
    SetExisting(w.fs, path, None);
    GetSet(w.fs, path, None);
    assert w'.fs == Set(w.fs, path, None).value;
  }

  /**
   * In every case only `unlink` and `rmdir` attempts and their warnings are
   * added to the log, paired as promised, and no process is started.
   */
  lemma RemoveOnlyDeletes(w: World, path: Path, sink: Sink)
    requires |path| > 0
    ensures var w' := RemoveSpec(w, path, sink);
      w.log <= w'.log && Paired(w'.log[|w.log|..], sink) && Commands(w'.log) == Commands(w.log)
  {
    var w' := RemoveSpec(w, path, sink);
    if IsDir(w.fs, path) {
      var n := Get(w.fs, path).value;
      var events := Erase(path, n, sink).1;
      assert w'.log == w.log + events;
      assert w'.log[|w.log|..] == events;
      EraseWarnsPairwise(path, n, sink);
      CommandsConcat(w.log, events);
      NoCommands(events, sink);
    } else {
      assert w'.log[|w.log|..] == [];
    }
  }

  lemma {:induction false} NoCommands(events: seq<Event>, sink: Sink)
    requires forall i :: 0 <= i < |events| ==> IsAttempt(events[i]) || IsWarning(events[i])
    ensures Commands(events) == []
    decreases |events|
  {
    if |events| > 0 {
      var init := events[..|events| - 1];
      assert forall i :: 0 <= i < |init| ==> init[i] == events[i];
      NoCommands(init, sink);
      assert IsAttempt(events[|events| - 1]) || IsWarning(events[|events| - 1]);
    }
  }
}
