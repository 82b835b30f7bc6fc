/**
 * The text transformation inside `StarterKitInstaller::_updateEnvFile`:
 * read the lines of `config/.env`, keep the `key=value` entries in an
 * insertion-ordered PHP array, overwrite or append the new pairs, and write
 * the array back as `key=value` lines.
 */
module EnvFile {
  import opened Prelude

  /** One `'key' => value` pair of `$envVars`, or one parsed line of the file. */
  datatype Assign = Assign(key: String, value: String)

  /**
   * The PHP array `$envMap`: its keys in insertion order, and the value of
   * each key.
   */
  datatype EnvMap = EnvMap(order: seq<String>, values: map<String, String>)

  ghost predicate Distinct(s: seq<String>) {
    forall i, j :: 0 <= i < j < |s| ==> s[i] != s[j]
  }

  /** Every key is listed once, and exactly the listed keys have a value. */
  ghost predicate Valid(m: EnvMap) {
    Distinct(m.order) && forall k :: k in m.values <==> k in m.order
  }

  const Empty: EnvMap := EnvMap([], map[])

  /** `$envMap[$k] = $v`: an existing key keeps its place, a new key goes last. */
  function Put(m: EnvMap, a: Assign): (r: EnvMap)
    requires Valid(m)
    ensures Valid(r)
  {
    EnvMap(if a.key in m.values then m.order else m.order + [a.key], m.values[a.key := a.value])
  }

  /** `foreach ($xs as $k => $v) { $envMap[$k] = $v; }` */
  function PutAll(m: EnvMap, xs: seq<Assign>): (r: EnvMap)
    requires Valid(m)
    ensures Valid(r)
    decreases |xs|
  {
    if |xs| == 0 then m else Put(PutAll(m, xs[..|xs| - 1]), xs[|xs| - 1])
  }

  lemma PutAllSnoc(m: EnvMap, xs: seq<Assign>, a: Assign)
    requires Valid(m)
    ensures PutAll(m, xs + [a]) == Put(PutAll(m, xs), a)
  {
    assert (xs + [a])[..|xs|] == xs;
  }

  // ---------------------------------------------------------------------
  // A reference description of PutAll: where the keys go, and what values
  // they end up with, stated separately.

  function KeySet(xs: seq<Assign>): set<String> {
    set a | a in xs :: a.key
  }

  /** The keys of `xs` that are not `known`, each once, in order of first appearance. */
  function NewKeys(known: seq<String>, xs: seq<Assign>): (r: seq<String>)
    ensures forall k :: k in r <==> k in KeySet(xs) && k !in known
    decreases |xs|
  {
    if |xs| == 0 then []
    else
      var n := NewKeys(known, xs[..|xs| - 1]);
      var k := xs[|xs| - 1].key;
      assert forall a :: a in xs <==> a in xs[..|xs| - 1] || a == xs[|xs| - 1];
      if k in known || k in n then n else n + [k]
  }

  /** Each key of `xs` with the last value `xs` gives it. */
  function Overlay(xs: seq<Assign>): (r: map<String, String>)
    ensures r.Keys == KeySet(xs)
    decreases |xs|
  {
    if |xs| == 0 then map[]
    else
      assert forall a :: a in xs <==> a in xs[..|xs| - 1] || a == xs[|xs| - 1];
      Overlay(xs[..|xs| - 1])[xs[|xs| - 1].key := xs[|xs| - 1].value]
  }

  lemma {:induction false} NewKeysDistinct(known: seq<String>, xs: seq<Assign>)
    ensures Distinct(NewKeys(known, xs))
    decreases |xs|
  {
    if |xs| > 0 {
      NewKeysDistinct(known, xs[..|xs| - 1]);
    }
  }

  /**
   * The merge, key by key: the keys already present keep their positions,
   * the new keys follow in order of first appearance, and every key of `xs`
   * takes the last value `xs` gives it while the other keys keep theirs.
   */
  lemma {:induction false} PutAllIsOverlay(m: EnvMap, xs: seq<Assign>)
    requires Valid(m)
    ensures PutAll(m, xs) == EnvMap(m.order + NewKeys(m.order, xs), m.values + Overlay(xs))
    decreases |xs|
  {
    if |xs| > 0 {
      var init, a := xs[..|xs| - 1], xs[|xs| - 1];
      PutAllIsOverlay(m, init);
      var p := PutAll(m, init);
      var n := NewKeys(m.order, init);
      assert p.values.Keys == m.values.Keys + KeySet(init);
      assert a.key in p.values <==> a.key in m.order || a.key in n;
      assert PutAll(m, xs) == Put(p, a);
      if a.key in m.order || a.key in n {
        assert NewKeys(m.order, xs) == n;
      } else {
        assert NewKeys(m.order, xs) == n + [a.key];
        assert m.order + (n + [a.key]) == (m.order + n) + [a.key];
      }
      assert Overlay(xs) == Overlay(init)[a.key := a.value];
      UpdateAfterUnion(m.values, Overlay(init), a.key, a.value);
    }
  }

  lemma UpdateAfterUnion(base: map<String, String>, top: map<String, String>, k: String, v: String)
    ensures (base + top)[k := v] == base + top[k := v]
  {
  }

  // ---------------------------------------------------------------------
  // Reading the file: `file($envFile, FILE_IGNORE_NEW_LINES | FILE_SKIP_EMPTY_LINES)`.

  /** FILE_IGNORE_NEW_LINES also drops the `\r` of a `\r\n` line ending. */
  function StripCR(segment: String): String {
    if |segment| > 0 && segment[|segment| - 1] == '\r' then segment[..|segment| - 1] else segment
  }

  /**
   * The lines PHP's `file()` returns with both flags: every line that ends
   * in `\n` loses its line ending and is skipped when nothing is left; a
   * last line without `\n` is returned as it is.
   */
  function ReadLines(s: String): (r: seq<String>)
    ensures forall l :: l in r ==> |l| > 0 && '\n' !in l
    decreases |s|
  {
    match IndexOf(s, '\n')
    case None => if |s| == 0 then [] else [s]
    case Some(i) =>
      var line := StripCR(s[..i]);
      var rest := ReadLines(s[i + 1..]);
      if |line| == 0 then rest else [line] + rest
  }

  // ---------------------------------------------------------------------
  // Parsing: `strpos($line, '=') !== false && $line[0] !== '#'`, then
  // `explode('=', $line, 2)`.

  predicate IsEntry(line: String) {
    IndexOf(line, '=').Some? && line[0] != '#'
  }

  /** The line split at its first `=`. */
  function Split(line: String): (a: Assign)
    requires IndexOf(line, '=').Some?
    ensures line == a.key + "=" + a.value && '=' !in a.key
  {
    var i := IndexOf(line, '=').value;
    assert line == line[..i] + "=" + line[i + 1..];
    Assign(line[..i], line[i + 1..])
  }

  /** The entry lines, split, in file order. */
  function Entries(lines: seq<String>): seq<Assign>
    decreases |lines|
  {
    if |lines| == 0 then []
    else
      var last := lines[|lines| - 1];
      Entries(lines[..|lines| - 1]) + (if IsEntry(last) then [Split(last)] else [])
  }

  lemma EntriesSnoc(lines: seq<String>, i: nat)
    requires i < |lines|
    ensures Entries(lines[..i + 1]) == Entries(lines[..i]) + (if IsEntry(lines[i]) then [Split(lines[i])] else [])
  {
    assert lines[..i + 1][..i] == lines[..i];
  }

  /** `$envMap` after the first loop of `_updateEnvFile`. */
  function Parse(lines: seq<String>): (m: EnvMap)
    ensures Valid(m)
  {
    PutAll(Empty, Entries(lines))
  }

  // ---------------------------------------------------------------------
  // Writing the file: `implode(PHP_EOL, $newLines) . PHP_EOL`.

  function Line(a: Assign): String {
    a.key + "=" + a.value
  }

  /** The pairs of the array, in its order. */
  function Pairs(m: EnvMap): (r: seq<Assign>)
    requires Valid(m)
    ensures |r| == |m.order|
    ensures forall i :: 0 <= i < |r| ==> r[i] == Assign(m.order[i], m.values[m.order[i]])
  {
    seq(|m.order|, i requires 0 <= i < |m.order| => Assign(m.order[i], m.values[m.order[i]]))
  }

  function Lines(xs: seq<Assign>): (r: seq<String>)
    ensures |r| == |xs|
    ensures forall i :: 0 <= i < |r| ==> r[i] == Line(xs[i])
  {
    seq(|xs|, i requires 0 <= i < |xs| => Line(xs[i]))
  }

  /** `$newLines` after the last loop of `_updateEnvFile`. */
  function RenderLines(m: EnvMap): seq<String>
    requires Valid(m)
  {
    Lines(Pairs(m))
  }

  function Render(m: EnvMap, eol: String): String
    requires Valid(m)
  {
    Implode(RenderLines(m), eol) + eol
  }

  /** `$newLines`, given the lines `_updateEnvFile` read and the pairs it was given. */
  function MergeLines(lines: seq<String>, xs: seq<Assign>): seq<String> {
    RenderLines(PutAll(Parse(lines), xs))
  }

  /** The content `_updateEnvFile` writes, given the lines it read. */
  function Merge(lines: seq<String>, xs: seq<Assign>, eol: String): String {
    Render(PutAll(Parse(lines), xs), eol)
  }

  /** The content `_updateEnvFile` writes, given the text of the file it read. */
  function MergeText(text: String, xs: seq<Assign>, eol: String): String {
    Merge(ReadLines(text), xs, eol)
  }

  // ---------------------------------------------------------------------
  // Where the keys go and which value wins.

  function Keys(xs: seq<Assign>): (r: seq<String>)
    ensures |r| == |xs| && forall i :: 0 <= i < |xs| ==> r[i] == xs[i].key
  {
    seq(|xs|, i requires 0 <= i < |xs| => xs[i].key)
  }

  ghost predicate DistinctKeys(xs: seq<Assign>) {
    forall i, j :: 0 <= i < j < |xs| ==> xs[i].key != xs[j].key
  }

  /** The keys of `ks` that are not `known`, in order (a reference definition, folded from the right). */
  function Unknown(known: seq<String>, ks: seq<String>): seq<String>
    decreases |ks|
  {
    if |ks| == 0 then []
    else (if ks[0] in known then [] else [ks[0]]) + Unknown(known, ks[1..])
  }

  lemma {:induction false} UnknownSnoc(known: seq<String>, ks: seq<String>, k: String)
    ensures Unknown(known, ks + [k]) == Unknown(known, ks) + (if k in known then [] else [k])
    decreases |ks|
  {
    if |ks| == 0 {
      assert ks + [k] == [k];
    } else {
      assert (ks + [k])[1..] == ks[1..] + [k];
      UnknownSnoc(known, ks[1..], k);
    }
  }

  /**
   * When the pairs have distinct keys (as the keys of a PHP array literal
   * do), the appended keys are exactly the unknown ones, in the pairs' order.
   */
  lemma {:induction false} NewKeysOfDistinct(known: seq<String>, xs: seq<Assign>)
    requires DistinctKeys(xs)
    ensures NewKeys(known, xs) == Unknown(known, Keys(xs))
    decreases |xs|
  {
    if |xs| > 0 {
      var init := xs[..|xs| - 1];
      NewKeysOfDistinct(known, init);
      assert Keys(xs) == Keys(init) + [xs[|xs| - 1].key];
      UnknownSnoc(known, Keys(init), xs[|xs| - 1].key);
      assert xs[|xs| - 1].key !in NewKeys(known, init) by {
        assert forall a :: a in init ==> a.key != xs[|xs| - 1].key;
      }
    }
  }

  /** A key gets the value of the last pair that sets it. */
  lemma {:induction false} OverlayLast(xs: seq<Assign>, i: nat)
    requires i < |xs|
    requires forall j :: i < j < |xs| ==> xs[j].key != xs[i].key
    ensures xs[i].key in Overlay(xs) && Overlay(xs)[xs[i].key] == xs[i].value
    decreases |xs|
  {
    if i < |xs| - 1 {
      OverlayLast(xs[..|xs| - 1], i);
    }
  }

  /** The keys listed for a prefix of the pairs stay listed, in the same places. */
  lemma {:induction false} NewKeysPrefix(known: seq<String>, xs: seq<Assign>, i: nat)
    requires i <= |xs|
    ensures NewKeys(known, xs[..i]) <= NewKeys(known, xs)
    decreases |xs|
  {
    if i < |xs| {
      assert xs[..|xs| - 1][..i] == xs[..i];
      NewKeysPrefix(known, xs[..|xs| - 1], i);
    } else {
      assert xs[..i] == xs;
    }
  }

  /**
   * A new key is listed where its first occurrence puts it: right after the
   * new keys of the pairs before it.
   */
  lemma NewKeysFirstOccurrence(known: seq<String>, xs: seq<Assign>, i: nat)
    requires i < |xs| && xs[i].key !in known
    requires forall j :: 0 <= j < i ==> xs[j].key != xs[i].key
    ensures |NewKeys(known, xs[..i])| < |NewKeys(known, xs)|
    ensures NewKeys(known, xs)[|NewKeys(known, xs[..i])|] == xs[i].key
  {
    var before := xs[..i];
    assert xs[..i + 1][..i] == before;
    assert xs[i].key !in NewKeys(known, before) by {
      assert forall a :: a in before ==> a.key != xs[i].key;
    }
    assert NewKeys(known, xs[..i + 1]) == NewKeys(known, before) + [xs[i].key];
    NewKeysPrefix(known, xs, i + 1);
  }

  /** New keys are appended in the order in which they first occur. */
  lemma NewKeysInOrder(known: seq<String>, xs: seq<Assign>, i: nat, j: nat)
    requires i < j < |xs| && xs[i].key !in known && xs[j].key !in known
    requires forall k :: 0 <= k < i ==> xs[k].key != xs[i].key
    requires forall k :: 0 <= k < j ==> xs[k].key != xs[j].key
    ensures |NewKeys(known, xs[..i])| < |NewKeys(known, xs[..j])|
  {
    NewKeysFirstOccurrence(known, xs[..j], i);
    assert xs[..j][..i] == xs[..i];
  }

  // ---------------------------------------------------------------------
  // The merge in the file's terms.

  /**
   * Overwrite in place, append in order: the keys of the file keep their
   * positions, the new keys of `xs` follow in `xs` order, every key of `xs`
   * gets its value and every other key keeps its own.
   */
  lemma MergeKeys(lines: seq<String>, xs: seq<Assign>)
    requires DistinctKeys(xs)
    ensures var m, r := Parse(lines), PutAll(Parse(lines), xs);
      r.order == m.order + Unknown(m.order, Keys(xs)) &&
      (forall i :: 0 <= i < |xs| ==> xs[i].key in r.values && r.values[xs[i].key] == xs[i].value) &&
      (forall k :: k in m.values && k !in Keys(xs) ==> k in r.values && r.values[k] == m.values[k])
  {
    var m := Parse(lines);
    PutAllIsOverlay(m, xs);
    NewKeysOfDistinct(m.order, xs);
    OverlayOfDistinct(xs);
    OverlayKeys(xs);
  }

  lemma OverlayOfDistinct(xs: seq<Assign>)
    requires DistinctKeys(xs)
    ensures forall i :: 0 <= i < |xs| ==> xs[i].key in Overlay(xs) && Overlay(xs)[xs[i].key] == xs[i].value
  {
    forall i | 0 <= i < |xs|
      ensures xs[i].key in Overlay(xs) && Overlay(xs)[xs[i].key] == xs[i].value
    {
      OverlayLast(xs, i);
    }
  }

  lemma OverlayKeys(xs: seq<Assign>)
    ensures forall k :: k in Overlay(xs) <==> k in Keys(xs)
  {
    forall k | k in Overlay(xs)
      ensures k in Keys(xs)
    {
      var a :| a in xs && a.key == k;
      var i :| 0 <= i < |xs| && xs[i] == a;
      assert Keys(xs)[i] == k;
    }
  }

  /**
   * The file's own entries: each key is listed once, where it first occurs,
   * and holds the value of its last occurrence.
   */
  lemma ParseFirstPositionLastValue(lines: seq<String>)
    ensures Parse(lines) == EnvMap(NewKeys([], Entries(lines)), Overlay(Entries(lines)))
  {
    PutAllIsOverlay(Empty, Entries(lines));
    assert Empty.values + Overlay(Entries(lines)) == Overlay(Entries(lines));
  }

  /** A line becomes an entry exactly when it has a `=` and does not start with `#`. */
  lemma {:induction false} EntriesOf(lines: seq<String>, a: Assign)
    ensures a in Entries(lines) <==> exists l :: l in lines && IsEntry(l) && a == Split(l)
    decreases |lines|
  {
    if |lines| > 0 {
      var init, last := lines[..|lines| - 1], lines[|lines| - 1];
      EntriesOf(init, a);
      assert forall l :: l in lines <==> l in init || l == last;
    }
  }

  /** A key the file format can hold: no `=`, and not the start of a comment. */
  predicate EntryKey(k: String) {
    '=' !in k && !(|k| > 0 && k[0] == '#')
  }

  /** An entry line splits back into the pair it was written from. */
  lemma SplitLine(a: Assign)
    requires EntryKey(a.key)
    ensures IsEntry(Line(a)) && Split(Line(a)) == a
  {
    IndexOfAfter(a.key, "=" + a.value, '=');
    assert Line(a) == a.key + ("=" + a.value);
  }

  /** Keys read from a file can be written back. */
  lemma EntryKeys(lines: seq<String>)
    ensures forall a :: a in Entries(lines) ==> EntryKey(a.key)
  {
    forall a | a in Entries(lines)
      ensures EntryKey(a.key)
    {
      EntriesOf(lines, a);
      var l :| l in lines && IsEntry(l) && a == Split(l);
      if |a.key| > 0 {
        assert l[0] == a.key[0];
      }
    }
  }

  /** Every value of `PutAll(m, xs)` is the value in `m` or one that `xs` gives. */
  lemma {:induction false} PutAllFrom(m: EnvMap, xs: seq<Assign>, k: String)
    requires Valid(m) && k in PutAll(m, xs).values
    ensures (k in m.values && PutAll(m, xs).values[k] == m.values[k]) || Assign(k, PutAll(m, xs).values[k]) in xs
    decreases |xs|
  {
    if |xs| > 0 && xs[|xs| - 1].key != k {
      PutAllFrom(m, xs[..|xs| - 1], k);
    }
  }

  /**
   * Comments, lines without `=` and empty lines are dropped: none of them is
   * a line of the rewritten file (as long as `xs` has only keys a file can hold).
   */
  lemma DroppedLinesGone(lines: seq<String>, xs: seq<Assign>, l: String)
    requires l in lines && !IsEntry(l)
    requires forall a :: a in xs ==> EntryKey(a.key)
    ensures l !in MergeLines(lines, xs)
  {
    var r := PutAll(Parse(lines), xs);
    EntryKeys(lines);
    if l in MergeLines(lines, xs) {
      var i :| 0 <= i < |r.order| && MergeLines(lines, xs)[i] == l;
      var k := r.order[i];
      PutAllFrom(Parse(lines), xs, k);
      if k in Parse(lines).values {
        PutAllFrom(Empty, Entries(lines), k);
      }
      assert EntryKey(k);
      SplitLine(Assign(k, r.values[k]));
      assert false;
    }
  }

  /** Running the phases one after another is one merge of all their pairs. */
  lemma {:induction false} PutAllConcat(m: EnvMap, xs: seq<Assign>, ys: seq<Assign>)
    requires Valid(m)
    ensures PutAll(PutAll(m, xs), ys) == PutAll(m, xs + ys)
    decreases |ys|
  {
    if |ys| == 0 {
      assert xs + ys == xs;
    } else {
      assert (xs + ys)[..|xs + ys| - 1] == xs + ys[..|ys| - 1];
      PutAllConcat(m, xs, ys[..|ys| - 1]);
    }
  }

  /** Setting the same pairs again changes nothing. */
  lemma PutAllTwice(m: EnvMap, xs: seq<Assign>)
    requires Valid(m)
    ensures PutAll(PutAll(m, xs), xs) == PutAll(m, xs)
  {
    var p := PutAll(m, xs);
    PutAllIsOverlay(m, xs);
    PutAllIsOverlay(p, xs);
    assert forall a :: a in xs ==> a.key in KeySet(xs);
    NoNewKeys(p.order, xs);
    assert p.order + [] == p.order;
    UnionTwice(m.values, Overlay(xs));
  }

  lemma {:induction false} NoNewKeys(known: seq<String>, xs: seq<Assign>)
    requires forall a :: a in xs ==> a.key in known
    ensures NewKeys(known, xs) == []
    decreases |xs|
  {
    if |xs| > 0 {
      NoNewKeys(known, xs[..|xs| - 1]);
    }
  }

  lemma UnionTwice(base: map<String, String>, top: map<String, String>)
    ensures (base + top) + top == base + top
  {
  }

  /** `PutAll` of a map's own pairs, from nothing, rebuilds the map. */
  lemma RebuildFromPairs(m: EnvMap)
    requires Valid(m)
    ensures PutAll(Empty, Pairs(m)) == m
  {
    PairsKeys(m);
    PairsOfDistinct(Pairs(m));
    PairsDetermine(PutAll(Empty, Pairs(m)), m);
  }

  lemma PairsKeys(m: EnvMap)
    requires Valid(m)
    ensures Keys(Pairs(m)) == m.order && DistinctKeys(Pairs(m))
  {
  }

  /** An array is determined by its pairs. */
  lemma PairsDetermine(m: EnvMap, n: EnvMap)
    requires Valid(m) && Valid(n) && Pairs(m) == Pairs(n)
    ensures m == n
  {
    PairsKeys(m);
    PairsKeys(n);
    assert m.order == n.order;
    forall k | k in m.values
      ensures k in n.values && m.values[k] == n.values[k]
    {
      var i :| 0 <= i < |m.order| && m.order[i] == k;
      assert Pairs(m)[i] == Pairs(n)[i];
    }
    assert m.values == n.values;
  }

  lemma {:induction false} UnknownNone(ks: seq<String>)
    ensures Unknown([], ks) == ks
    decreases |ks|
  {
    if |ks| > 0 {
      UnknownNone(ks[1..]);
    }
  }

  // ---------------------------------------------------------------------
  // Writing and reading back.

  predicate IsEol(eol: String) {
    eol == "\n" || eol == "\r\n"
  }

  predicate EndsInCR(s: String) {
    |s| > 0 && s[|s| - 1] == '\r'
  }

  /**
   * A line that `file()` hands back unchanged after it was written with the
   * line ending `eol`: with a bare `\n` a trailing `\r` would be taken for
   * part of the line ending.
   */
  predicate Survives(l: String, eol: String) {
    |l| > 0 && '\n' !in l && (eol == "\n" ==> !EndsInCR(l))
  }

  lemma ReadLinesStep(l: String, eol: String, rest: String)
    requires IsEol(eol) && Survives(l, eol)
    ensures ReadLines(l + eol + rest) == [l] + ReadLines(rest)
  {
    if eol == "\n" {
      ReadLinesStepLF(l, rest);
    } else {
      ReadLinesStepCRLF(l, rest);
    }
  }

  lemma ReadLinesStepLF(l: String, rest: String)
    requires Survives(l, "\n")
    ensures ReadLines(l + "\n" + rest) == [l] + ReadLines(rest)
  {
    var s := l + "\n" + rest;
    assert s == l + ("\n" + rest);
    IndexOfAfter(l, "\n" + rest, '\n');
    assert s[..|l|] == l;
    assert s[|l| + 1..] == rest;
  }

  lemma ReadLinesStepCRLF(l: String, rest: String)
    requires |l| > 0 && '\n' !in l
    ensures ReadLines(l + "\r\n" + rest) == [l] + ReadLines(rest)
  {
    var s := l + "\r\n" + rest;
    var lcr := l + "\r";
    assert s == lcr + ("\n" + rest);
    assert '\n' !in lcr;
    IndexOfAfter(lcr, "\n" + rest, '\n');
    assert s[..|lcr|] == lcr;
    assert StripCR(lcr) == l;
    assert s[|lcr| + 1..] == rest;
  }

  /** `file()` gives back the lines that `implode($eol, ...) . $eol` joined. */
  lemma {:induction false} ReadRendered(ls: seq<String>, eol: String)
    requires IsEol(eol) && forall l :: l in ls ==> Survives(l, eol)
    ensures ReadLines(Implode(ls, eol) + eol) == ls
    decreases |ls|
  {
    if |ls| == 0 {
      assert Implode(ls, eol) + eol == eol;
      ReadEol(eol);
    } else if |ls| == 1 {
      ReadOneLine(ls[0], eol);
    } else {
      var rest := Implode(ls[1..], eol) + eol;
      ImplodeCons(ls, eol);
      assert ls[0] in ls;
      ReadLinesStep(ls[0], eol, rest);
      assert forall l :: l in ls[1..] ==> l in ls;
      ReadRendered(ls[1..], eol);
      HeadTail(ls);
    }
  }

  lemma ReadOneLine(l: String, eol: String)
    requires IsEol(eol) && Survives(l, eol)
    ensures ReadLines(Implode([l], eol) + eol) == [l]
  {
    ReadLinesStep(l, eol, "");
    assert l + eol + "" == Implode([l], eol) + eol;
    assert ReadLines("") == [];
  }

  lemma HeadTail(ls: seq<String>)
    requires |ls| > 0
    ensures [ls[0]] + ls[1..] == ls
  {
  }

  lemma ImplodeCons(ls: seq<String>, eol: String)
    requires |ls| > 1
    ensures Implode(ls, eol) + eol == ls[0] + eol + (Implode(ls[1..], eol) + eol)
  {
  }


  /** A line ending alone reads as no line at all. */
  lemma ReadEol(eol: String)
    requires IsEol(eol)
    ensures ReadLines(eol) == []
  {
    assert ReadLines("") == [];
    if eol == "\n" {
      assert IndexOf(eol, '\n') == Some(0);
      assert eol[1..] == "";
    } else {
      assert IndexOf(eol, '\n') == Some(1);
      assert eol[..1] == "\r" && eol[2..] == "";
    }
  }


  /** Entry lines written from pairs parse back into those pairs. */
  lemma {:induction false} EntriesLines(xs: seq<Assign>)
    requires forall a :: a in xs ==> EntryKey(a.key)
    ensures Entries(Lines(xs)) == xs
    decreases |xs|
  {
    if |xs| > 0 {
      var init := xs[..|xs| - 1];
      assert Lines(xs)[..|xs| - 1] == Lines(init);
      EntriesLines(init);
      SplitLine(xs[|xs| - 1]);
    }
  }

  /** A pair whose line survives being written with `eol` and read back. */
  predicate Fits(a: Assign, eol: String) {
    EntryKey(a.key) && '\n' !in a.key && '\n' !in a.value && (eol == "\n" ==> !EndsInCR(a.value))
  }

  ghost predicate FitsMap(m: EnvMap, eol: String) {
    forall k :: k in m.values ==> Fits(Assign(k, m.values[k]), eol)
  }

  lemma LineSurvives(a: Assign, eol: String)
    requires Fits(a, eol)
    ensures Survives(Line(a), eol)
  {
    var l := Line(a);
    assert l == a.key + ("=" + a.value);
    if |a.value| > 0 {
      assert l[|l| - 1] == a.value[|a.value| - 1];
    }
  }

  /** What `_updateEnvFile` writes parses back into the array it wrote. */
  lemma Reparse(m: EnvMap, eol: String)
    requires Valid(m) && IsEol(eol) && FitsMap(m, eol)
    ensures Parse(ReadLines(Render(m, eol))) == m
  {
    var ps := Pairs(m);
    PairsFit(m, eol);
    LinesSurvive(ps, eol);
    ReadRendered(Lines(ps), eol);
    assert ReadLines(Render(m, eol)) == Lines(ps);
    EntriesLines(ps);
    RebuildFromPairs(m);
  }

  lemma PairsFit(m: EnvMap, eol: String)
    requires Valid(m) && FitsMap(m, eol)
    ensures forall a :: a in Pairs(m) ==> Fits(a, eol)
  {
    var ps := Pairs(m);
    forall a | a in ps
      ensures Fits(a, eol)
    {
      var i :| 0 <= i < |ps| && ps[i] == a;
      assert m.order[i] in m.values;
    }
  }

  lemma LinesSurvive(xs: seq<Assign>, eol: String)
    requires forall a :: a in xs ==> Fits(a, eol)
    ensures forall l :: l in Lines(xs) ==> Survives(l, eol)
  {
    forall l | l in Lines(xs)
      ensures Survives(l, eol)
    {
      var i :| 0 <= i < |xs| && Lines(xs)[i] == l;
      LineSurvives(xs[i], eol);
    }
  }

  /** The lines `file()` returned, as far as writing them back is concerned. */
  ghost predicate ReadableWith(lines: seq<String>, eol: String) {
    forall l :: l in lines ==> '\n' !in l && (eol == "\n" ==> !EndsInCR(l))
  }

  lemma ParsedFits(lines: seq<String>, eol: String)
    requires ReadableWith(lines, eol)
    ensures FitsMap(Parse(lines), eol)
  {
    EntryKeys(lines);
    forall k | k in Parse(lines).values
      ensures Fits(Assign(k, Parse(lines).values[k]), eol)
    {
      var v := Parse(lines).values[k];
      PutAllFrom(Empty, Entries(lines), k);
      EntriesOf(lines, Assign(k, v));
      var l :| l in lines && IsEntry(l) && Assign(k, v) == Split(l);
      assert l == k + "=" + v;
      if |v| > 0 {
        assert l[|l| - 1] == v[|v| - 1];
      }
    }
  }

  lemma PutAllFits(m: EnvMap, xs: seq<Assign>, eol: String)
    requires Valid(m) && FitsMap(m, eol) && forall a :: a in xs ==> Fits(a, eol)
    ensures FitsMap(PutAll(m, xs), eol)
  {
    forall k | k in PutAll(m, xs).values
      ensures Fits(Assign(k, PutAll(m, xs).values[k]), eol)
    {
      PutAllFrom(m, xs, k);
    }
  }

  /**
   * Merging the same pairs twice writes what merging once wrote, for pairs
   * that fit on one line and a file whose lines can be written back.
   */
  lemma MergeIdempotent(text: String, xs: seq<Assign>, eol: String)
    requires IsEol(eol) && forall a :: a in xs ==> Fits(a, eol)
    requires ReadableWith(ReadLines(text), eol)
    ensures MergeText(MergeText(text, xs, eol), xs, eol) == MergeText(text, xs, eol)
  {
    var m := Parse(ReadLines(text));
    ParsedFits(ReadLines(text), eol);
    PutAllFits(m, xs, eol);
    Reparse(PutAll(m, xs), eol);
    PutAllTwice(m, xs);
  }

  /**
   * Two merges in a row write what one merge of both lists of pairs writes:
   * a later phase keeps the keys an earlier phase set.
   */
  lemma MergeThenMerge(text: String, xs: seq<Assign>, ys: seq<Assign>, eol: String)
    requires IsEol(eol) && forall a :: a in xs ==> Fits(a, eol)
    requires ReadableWith(ReadLines(text), eol)
    ensures MergeText(MergeText(text, xs, eol), ys, eol) == MergeText(text, xs + ys, eol)
  {
    var m := Parse(ReadLines(text));
    ParsedFits(ReadLines(text), eol);
    PutAllFits(m, xs, eol);
    Reparse(PutAll(m, xs), eol);
    PutAllConcat(m, xs, ys);
  }

  /**
   * Idempotence does need the condition on the file: a last line `a=b\r`
   * without a line break keeps its `\r`, which the rewrite then turns into
   * part of a line ending.
   */
  lemma NotIdempotentOnBareCR()
    ensures MergeText(MergeText("a=b\r", [], "\n"), [], "\n") != MergeText("a=b\r", [], "\n")
  {
    MergeBareCR();
    MergeCRLF();
    assert "a=b\n" != "a=b\r\n";
  }

  lemma MergeBareCR()
    ensures MergeText("a=b\r", [], "\n") == "a=b\r\n"
  {
    var once := "a=b\r";
    assert '\n' !in once;
    assert ReadLines(once) == [once];
    assert once == "a" + "=" + "b\r";
    ParseOne("a", "b\r");
    RenderOne("a", "b\r", "\n");
  }

  lemma MergeCRLF()
    ensures MergeText("a=b\r\n", [], "\n") == "a=b\n"
  {
    ReadCRLF();
    assert "a=b" == "a" + "=" + "b";
    ParseOne("a", "b");
    RenderOne("a", "b", "\n");
  }

  lemma ReadCRLF()
    ensures ReadLines("a=b\r\n") == ["a=b"]
  {
    ReadLinesStepCRLF("a=b", "");
    assert "a=b\r\n" == "a=b" + "\r\n" + "";
    assert ReadLines("") == [];
  }


  lemma ParseOne(k: String, v: String)
    requires EntryKey(k)
    ensures Parse([k + "=" + v]) == EnvMap([k], map[k := v])
  {
    var a := Assign(k, v);
    SplitLine(a);
    assert Entries([Line(a)]) == [a] by {
      assert [Line(a)][..0] == [];
    }
    assert [a][..0] == [];
    assert PutAll(Empty, [a]) == Put(Empty, a);
  }

  lemma RenderOne(k: String, v: String, eol: String)
    ensures Render(EnvMap([k], map[k := v]), eol) == k + "=" + v + eol
  {
    assert RenderLines(EnvMap([k], map[k := v])) == [k + "=" + v];
  }

  /** With no existing file the rewrite is exactly the pairs, one line each. */
  lemma MergeOfNothing(xs: seq<Assign>, eol: String)
    requires DistinctKeys(xs)
    ensures Merge([], xs, eol) == Implode(Lines(xs), eol) + eol
  {
    assert Entries([]) == [];
    assert Parse([]) == Empty;
    PairsOfDistinct(xs);
  }

  /** Pairs with distinct keys, put into an empty array, come back out as they went in. */
  lemma PairsOfDistinct(xs: seq<Assign>)
    requires DistinctKeys(xs)
    ensures Pairs(PutAll(Empty, xs)) == xs
  {
    var r := PutAll(Empty, xs);
    PutAllIsOverlay(Empty, xs);
    NewKeysOfDistinct([], xs);
    UnknownNone(Keys(xs));
    assert r.order == Keys(xs) by {
      assert [] + Keys(xs) == Keys(xs);
    }
    assert r.values == Overlay(xs) by {
      UnionEmpty(Overlay(xs));
    }
    OverlayOfDistinct(xs);
    var ps := Pairs(r);
    assert |ps| == |xs|;
    forall i | 0 <= i < |xs|
      ensures ps[i] == xs[i]
    {
      assert r.order[i] == xs[i].key;
    }
  }

  lemma UnionEmpty(m: map<String, String>)
    ensures map[] + m == m
  {
  }


}
