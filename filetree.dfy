/**
 * The filesystem the installer works on, as a tree. A directory lists its
 * entries (without `.` and `..`) in an order the tree fixes; a new entry
 * goes last. An
 * entry marked `locked` is protected: it can be neither deleted nor
 * overwritten (this is how a file held open by another process, or one
 * without the needed permissions, shows up to PHP).
 */
module FileTree {
  import opened Prelude

  type Name = String
  type Path = seq<Name>

  datatype Node =
    | File(content: String, locked: bool)
    | Dir(entries: seq<Entry>, locked: bool)

  datatype Entry = Entry(name: Name, node: Node)

  /** Paths are written with `/`, as the installer builds them (`$name . '/config/.env'`). */
  function Show(p: Path): String {
    Implode(p, "/")
  }

  /** The position of the first entry called `name`. */
  function Find(es: seq<Entry>, name: Name): (r: Option<nat>)
    ensures r.Some? ==> r.value < |es| && es[r.value].name == name
    ensures r.None? ==> forall j :: 0 <= j < |es| ==> es[j].name != name
    decreases |es|
  {
    if |es| == 0 then None
    else if es[0].name == name then Some(0)
    else match Find(es[1..], name)
      case None => None
      case Some(i) => Some(i + 1)
  }

  /** The entries other than those called `name`. */
  function Without(es: seq<Entry>, name: Name): (r: seq<Entry>)
    ensures forall j :: 0 <= j < |r| ==> r[j].name != name
    decreases |es|
  {
    if |es| == 0 then []
    else if es[0].name == name then Without(es[1..], name)
    else [es[0]] + Without(es[1..], name)
  }

  /** What is found at `p`, walking down from the working directory `t`. */
  function Get(t: Node, p: Path): Option<Node>
    decreases |p|
  {
    if |p| == 0 then Some(t)
    else match t
      case File(_, _) => None
      case Dir(es, _) =>
        match Find(es, p[0])
        case None => None
        case Some(i) => Get(es[i].node, p[1..])
  }

  /** `file_exists($p)`: true for files and for directories. */
  predicate Exists(t: Node, p: Path) {
    Get(t, p).Some?
  }

  /** `is_dir($p)` */
  predicate IsDir(t: Node, p: Path) {
    Get(t, p).Some? && Get(t, p).value.Dir?
  }

  /** `file_get_contents($p)` when `p` is a regular file. */
  function Read(t: Node, p: Path): Option<String> {
    match Get(t, p)
    case Some(File(c, _)) => Some(c)
    case _ => None
  }

  /**
   * Puts `r` at `p` (or removes what is there when `r` is `None`); there is
   * no tree when a directory on the way to `p` is missing.
   */
  function Set(t: Node, p: Path, r: Option<Node>): Option<Node>
    requires |p| > 0
    decreases |p|
  {
    match t
    case File(_, _) => None
    case Dir(es, lk) =>
      var i := Find(es, p[0]);
      if |p| == 1 then
        if r.None? then Some(Dir(Without(es, p[0]), lk))
        else if i.Some? then Some(Dir(es[i.value := Entry(p[0], r.value)], lk))
        else Some(Dir(es + [Entry(p[0], r.value)], lk))
      else if i.None? then None
      else match Set(es[i.value].node, p[1..], r)
        case None => None
        case Some(c) => Some(Dir(es[i.value := Entry(p[0], c)], lk))
  }

  /**
   * `file_put_contents($p, $content) !== false`: fails when the directory
   * that should hold `p` is missing, when `p` is a directory, or when `p` is
   * a locked file.
   */
  function Write(t: Node, p: Path, content: String): Option<Node>
    requires |p| > 0
  {
    match Get(t, p)
    case Some(Dir(_, _)) => None
    case Some(File(_, true)) => None
    case _ => Set(t, p, Some(File(content, false)))
  }

  /** `copy($src, $dst)`: reads a regular file and writes its content at `dst`. */
  function Copy(t: Node, src: Path, dst: Path): Option<Node>
    requires |dst| > 0
  {
    match Read(t, src)
    case None => None
    case Some(c) => Write(t, dst, c)
  }

  /** After a successful `Set`, `p` holds exactly what was put there. */
  lemma {:induction false} GetSet(t: Node, p: Path, r: Option<Node>)
    requires |p| > 0 && Set(t, p, r).Some?
    ensures Get(Set(t, p, r).value, p) == r
    decreases |p|
  {
    var es := t.entries;
    var i := Find(es, p[0]);
    if |p| == 1 {
      if r.None? {
        assert Find(Without(es, p[0]), p[0]).None?;
      } else if i.Some? {
        FindFirst(es, p[0], i.value);
        FindAfterUpdate(es, i.value, Entry(p[0], r.value));
      } else {
        FindAppended(es, Entry(p[0], r.value));
      }
    } else {
      var c := Set(es[i.value].node, p[1..], r).value;
      GetSet(es[i.value].node, p[1..], r);
      FindAfterUpdate(es, i.value, Entry(p[0], c));
    }
  }

  /** `Find` returns the first matching position: nothing before it matches. */
  lemma {:induction false} FindFirst(es: seq<Entry>, name: Name, i: nat)
    requires Find(es, name) == Some(i)
    ensures forall j :: 0 <= j < i ==> es[j].name != name
    decreases |es|
  {
    if es[0].name != name {
      FindFirst(es[1..], name, i - 1);
    }
  }

  lemma FindAfterUpdate(es: seq<Entry>, i: nat, e: Entry)
    requires Find(es, e.name) == Some(i)
    ensures Find(es[i := e], e.name) == Some(i)
  {
    FindFirst(es, e.name, i);
    FindIsFirst(es[i := e], e.name, i);
  }

  lemma FindAppended(es: seq<Entry>, e: Entry)
    requires Find(es, e.name).None?
    ensures Find(es + [e], e.name) == Some(|es|)
  {
    FindIsFirst(es + [e], e.name, |es|);
  }

  /** A position holding `name` with no earlier `name` is what `Find` returns. */
  lemma {:induction false} FindIsFirst(es: seq<Entry>, name: Name, i: nat)
    requires i < |es| && es[i].name == name
    requires forall j :: 0 <= j < i ==> es[j].name != name
    ensures Find(es, name) == Some(i)
    decreases |es|
  {
    if i > 0 {
      FindIsFirst(es[1..], name, i - 1);
    }
  }

  /** `Set` succeeds wherever something already exists (below the working directory). */
  lemma {:induction false} SetExisting(t: Node, p: Path, r: Option<Node>)
    requires |p| > 0 && Exists(t, p)
    ensures Set(t, p, r).Some?
    decreases |p|
  {
    if |p| > 1 {
      var i := Find(t.entries, p[0]);
      SetExisting(t.entries[i.value].node, p[1..], r);
    }
  }

  /** A written file reads back as what was written, and is not locked. */
  lemma ReadAfterWrite(t: Node, p: Path, content: String)
    requires |p| > 0 && Write(t, p, content).Some?
    ensures Get(Write(t, p, content).value, p) == Some(File(content, false))
    ensures Read(Write(t, p, content).value, p) == Some(content)
  {
    GetSet(t, p, Some(File(content, false)));
  }

  /** Overwriting a file that is not locked always succeeds. */
  lemma WriteOverFile(t: Node, p: Path, oldContent: String, content: String)
    requires |p| > 0 && Get(t, p) == Some(File(oldContent, false))
    ensures Write(t, p, content).Some?
  {
    SetExisting(t, p, Some(File(content, false)));
  }

  /**
   * Where something exists, anything can be put beside it: the directory
   * that holds it is there.
   */
  lemma {:induction false} SetBeside(t: Node, p: Path, q: Path, r: Option<Node>)
    requires |p| == |q| > 0 && p[..|p| - 1] == q[..|q| - 1] && Exists(t, p)
    ensures Set(t, q, r).Some?
    decreases |p|
  {
    if |p| > 1 {
      assert q[0] == q[..|q| - 1][0] == p[..|p| - 1][0] == p[0];
      var i := Find(t.entries, p[0]);
      assert p[1..][..|p| - 2] == p[..|p| - 1][1..];
      assert q[1..][..|q| - 2] == q[..|q| - 1][1..];
      SetBeside(t.entries[i.value].node, p[1..], q[1..], r);
    }
  }

  /** A file written beside an existing one reads back as written. */
  lemma WriteBeside(t: Node, p: Path, q: Path, content: String)
    requires |p| == |q| > 0 && p[..|p| - 1] == q[..|q| - 1] && Exists(t, p) && !Exists(t, q)
    ensures Write(t, q, content).Some? && Read(Write(t, q, content).value, q) == Some(content)
  {
    SetBeside(t, p, q, Some(File(content, false)));
    ReadAfterWrite(t, q, content);
  }

  /** `Set` succeeds whenever the directory that should hold `q` is there. */
  lemma {:induction false} SetInDir(t: Node, q: Path, r: Option<Node>)
    requires |q| > 0 && IsDir(t, q[..|q| - 1])
    ensures Set(t, q, r).Some?
    decreases |q|
  {
    if |q| > 1 {
      var i := Find(t.entries, q[0]);
      assert q[..|q| - 1][0] == q[0];
      assert q[1..][..|q| - 2] == q[..|q| - 1][1..];
      SetInDir(t.entries[i.value].node, q[1..], r);
    }
  }

  /** Nothing is below a path that does not exist. */
  lemma {:induction false} GetBelowMissing(t: Node, p: Path, k: nat)
    requires k <= |p| && !Exists(t, p[..k])
    ensures !Exists(t, p)
    decreases k
  {
    if k > 0 && t.Dir? {
      var i := Find(t.entries, p[0]);
      if i.Some? {
        assert p[..k][0] == p[0];
        assert p[1..][..k - 1] == p[..k][1..];
        GetBelowMissing(t.entries[i.value].node, p[1..], k - 1);
      }
    }
  }

  /** `Set` fails when the directory that should hold `q` is missing. */
  lemma {:induction false} SetWithoutDir(t: Node, q: Path, r: Option<Node>)
    requires |q| > 0 && !Exists(t, q[..|q| - 1])
    ensures Set(t, q, r).None?
    decreases |q|
  {
    if |q| > 1 && t.Dir? {
      var i := Find(t.entries, q[0]);
      if i.Some? {
        assert q[..|q| - 1][0] == q[0];
        assert q[1..][..|q| - 2] == q[..|q| - 1][1..];
        SetWithoutDir(t.entries[i.value].node, q[1..], r);
      }
    }
  }
}
