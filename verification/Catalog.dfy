/**
 The admin's catalog files: what each edit does to a document, and the write that replaces a file in one rename.
 Documents are values, the file and its directory are an object whose calls may fail at any system call.
 */
module Catalog {
  import opened Common

  type Item = string

  /** A catalog document: `itemListElement`, which may be missing, and everything else. */
  datatype Doc = Doc(items: Option<seq<Item>>, rest: string)

  datatype Op = Add(item: Item) | Update(index: int, item: Item) | Delete(index: int)

  function Items(d: Doc): seq<Item> { if d.items.Some? then d.items.value else [] }

  /** Python list indexing: -n is the first of n elements. None is IndexError. */
  function PyIndex(i: int, n: nat): Option<nat> {
    if 0 <= i < n then Some(i) else if i < 0 <= i + n then Some(i + n) else None
  }

  /** The document after an edit; None when the index is bad and nothing is written. */
  function Apply(op: Op, d: Doc): Option<Doc> {
    var items := Items(d);
    match op
    case Add(item) => Some(d.(items := Some(items + [item])))
    case Update(index, item) =>
      (match PyIndex(index, |items|)
       case None => None
       case Some(k) => Some(d.(items := Some(items[k := item]))))
    case Delete(index) =>
      (match PyIndex(index, |items|)
       case None => None
       case Some(k) => Some(d.(items := Some(items[..k] + items[k + 1..]))))
  }

  /** The document after a list of edits, in order. */
  function Replay(d: Doc, ops: seq<Op>): Option<Doc>
    decreases |ops|
  {
    if ops == [] then Some(d)
    else
      match Replay(d, ops[..|ops| - 1])
      case None => None
      case Some(before) => Apply(ops[|ops| - 1], before)
  }

  function AddedItems(ops: seq<Op>): seq<Item>
    requires forall op :: op in ops ==> op.Add?
    decreases |ops|
  {
    if ops == [] then [] else AddedItems(ops[..|ops| - 1]) + [ops[|ops| - 1].item]
  }

  /** Additions never fail and never displace one another. */
  lemma {:induction false} AddsAccumulate(d: Doc, ops: seq<Op>)
    requires forall op :: op in ops ==> op.Add?
    ensures Replay(d, ops).Some? && Items(Replay(d, ops).value) == Items(d) + AddedItems(ops)
    ensures Replay(d, ops).value.rest == d.rest
    decreases |ops|
  {
    if ops == [] {
      assert Items(d) + [] == Items(d);
    } else {
      AddsAccumulate(d, ops[..|ops| - 1]);
    }
  }

  /** No edit touches anything but the item list; updating and deleting act on one position and need it to exist. */
  lemma ApplyChangesOneItem(op: Op, d: Doc)
    ensures Apply(op, d).None? <==> !op.Add? && !(-|Items(d)| <= op.index < |Items(d)|)
    ensures Apply(op, d).Some? ==> Apply(op, d).value.rest == d.rest
    ensures op.Update? && Apply(op, d).Some? ==>
              var k := if op.index < 0 then op.index + |Items(d)| else op.index;
              var after := Items(Apply(op, d).value);
              |after| == |Items(d)| && after[k] == op.item
              && forall j :: 0 <= j < |after| && j != k ==> after[j] == Items(d)[j]
    ensures op.Delete? && Apply(op, d).Some? ==>
              var k := if op.index < 0 then op.index + |Items(d)| else op.index;
              var after := Items(Apply(op, d).value);
              |after| == |Items(d)| - 1
              && forall j :: 0 <= j < |after| ==> after[j] == Items(d)[if j < k then j else j + 1]
  {}

  // ---------- names ----------

  /** A name in one of the directories under `STATIC_DIR`. */
  datatype Name = Name(dir: string, base: string)

  const CATALOG_DIR := "catalog"
  const MANIFEST_DIR := ".well-known"
  const KINDS: set<string> := {"products", "services", "jobs", "demand"}
  const STALE := ".*.tmp"

  /** The files that the program writes: one per kind, and the manifest. */
  function Targets(): set<Name> {
    (set kind | kind in KINDS :: Name(CATALOG_DIR, kind + ".json")) + {Name(MANIFEST_DIR, "agent-embassy.json")}
  }

  /** The name `mkstemp` makes next to a target. */
  function TempName(path: Name, rand: string): Name { Name(path.dir, "." + path.base + "." + rand + ".tmp") }

  /** Shell-style matching, where `*` stands for any text. */
  predicate Glob(pattern: string, s: string)
    decreases |pattern| + |s|
  {
    if pattern == "" then s == ""
    else if pattern[0] == '*' then Glob(pattern[1..], s) || (s != "" && Glob(pattern, s[1..]))
    else s != "" && s[0] == pattern[0] && Glob(pattern[1..], s[1..])
  }

  predicate EndsWith(s: string, end: string) { |s| >= |end| && s[|s| - |end|..] == end }

  predicate LooksStale(base: string) { |base| >= 5 && base[0] == '.' && EndsWith(base, ".tmp") }

  /** What `_cleanup_stale_temp_files` goes for: the names its pattern matches in its two directories. */
  predicate IsStale(n: Name) { (n.dir == CATALOG_DIR || n.dir == MANIFEST_DIR) && LooksStale(n.base) }

  lemma {:induction false} GlobLiteral(pattern: string, s: string)
    requires '*' !in pattern
    ensures Glob(pattern, s) <==> s == pattern
  {
    if pattern != "" && s != "" {
      assert pattern == [pattern[0]] + pattern[1..] && s == [s[0]] + s[1..];
      GlobLiteral(pattern[1..], s[1..]);
    }
  }

  lemma {:induction false} GlobSuffix(end: string, s: string)
    requires '*' !in end
    ensures Glob("*" + end, s) <==> EndsWith(s, end)
    decreases |s|
  {
    var pattern := "*" + end;
    assert pattern[1..] == end;
    GlobLiteral(end, s);
    if s != "" {
      GlobSuffix(end, s[1..]);
      if |s| > |end| {
        assert s[|s| - |end|..] == s[1..][|s[1..]| - |end|..];
      }
    }
  }

  /** The pattern matches exactly the names that begin with a dot and end in ".tmp". */
  lemma StalePattern(base: string)
    ensures Glob(STALE, base) <==> LooksStale(base)
  {
    assert STALE[0] == '.' && STALE[1..] == "*" + ".tmp";
    if base != "" {
      GlobSuffix(".tmp", base[1..]);
      if |base| >= 5 {
        assert base[|base| - 4..] == base[1..][|base[1..]| - 4..];
      }
    }
  }

  /** Every temporary file matches, and no target does. */
  lemma PatternTellsTempsFromTargets(path: Name, rand: string)
    requires path in Targets()
    ensures IsStale(TempName(path, rand)) && !IsStale(path)
    ensures Glob(STALE, TempName(path, rand).base) && !Glob(STALE, path.base)
    ensures TempName(path, rand) !in Targets()
  {
    StalePattern(path.base);
    StalePattern(TempName(path, rand).base);
    TempLooksStale(path, rand);
    TargetsEndInJson(path);
    TargetsAreNotStale();
  }

  lemma TempLooksStale(path: Name, rand: string)
    ensures LooksStale(TempName(path, rand).base)
  {
    var head := "." + path.base + "." + rand;
    assert TempName(path, rand).base == head + ".tmp" && (head + ".tmp")[|head|..] == ".tmp";
  }

  lemma TargetsEndInJson(path: Name)
    requires path in Targets()
    ensures EndsWith(path.base, ".json") && (path.dir == CATALOG_DIR || path.dir == MANIFEST_DIR)
  {
    if path != Name(MANIFEST_DIR, "agent-embassy.json") {
      var kind :| kind in KINDS && path == Name(CATALOG_DIR, kind + ".json");
      assert (kind + ".json")[|kind|..] == ".json";
    } else {
      assert "agent-embassy.json" == "agent-embassy" + ".json";
      assert path.base[|"agent-embassy"|..] == ".json";
    }
  }

  lemma TargetsAreNotStale()
    ensures forall path :: path in Targets() ==> !IsStale(path)
  {
    forall path | path in Targets() ensures !IsStale(path) {
      TargetsEndInJson(path);
      var b := path.base;
      assert b[|b| - 5..][4] == b[|b| - 1] == 'n';
      assert |b| >= 4 ==> b[|b| - 4..][3] == b[|b| - 1];
    }
  }

  // ---------- the directories as an object ----------

  /** What a file holds: a complete document, or the beginning of one. */
  datatype Content = Partial | Whole(doc: Doc)

  /** `readable`: the mode lets the web server's own user read it. */
  datatype File = File(content: Content, readable: bool)

  /** The system call at which an exception is raised, if any. */
  datatype Fault = NoFault | AtRead | AtCreate | AtWrite | AtChmod | AtRename

  /** One edit of `path`: done, or, but for a temporary file left over, not begun. */
  ghost predicate Edited(before: map<Name, File>, after: map<Name, File>, path: Name, tmp: Name, op: Op, ok: bool) {
    if ok then
      && path in before && before[path].content.Whole? && Apply(op, before[path].content.doc).Some?
      && after == before[path := File(Whole(Apply(op, before[path].content.doc).value), true)]
    else after - {tmp} == before
  }

  class Directories {
    var files: map<Name, File>

    constructor (files: map<Name, File>)
      ensures this.files == files
    {
      this.files := files;
    }

    /**
     `_atomic_write`: a temporary file is created, filled, opened to readers and renamed over the target; if that
     fails it is unlinked, and `refused` says that this fails too.
     */
    method AtomicWrite(path: Name, doc: Doc, rand: string, fault: Fault, refused: bool) returns (ok: bool)
      requires TempName(path, rand) !in files
      modifies this
      ensures ok <==> fault.NoFault? || fault.AtRead?
      ensures ok ==> files == old(files)[path := File(Whole(doc), true)]
      ensures !ok ==> files - {TempName(path, rand)} == old(files)
      ensures TempName(path, rand) in files <==> !ok && !fault.AtCreate? && refused
    {
      var tmp := TempName(path, rand);
      assert |tmp.base| > |path.base|;
      if fault.AtCreate? { return false; }
      files := files[tmp := File(Partial, false)];
      if !fault.AtWrite? {
        files := files[tmp := File(Whole(doc), false)];
        if !fault.AtChmod? {
          files := files[tmp := files[tmp].(readable := true)];
          if !fault.AtRename? {
            files := files[path := files[tmp]] - {tmp};
            return true;
          }
        }
      }
      if !refused {
        files := files - {tmp};
      }
      return false;
    }

    /** Reading and parsing a file. */
    method ReadJson(path: Name, fault: Fault) returns (doc: Option<Doc>)
      ensures doc == if fault.AtRead? || path !in files || files[path].content.Partial? then None
                     else Some(files[path].content.doc)
    {
      doc := if fault.AtRead? || path !in files || files[path].content.Partial? then None
             else Some(files[path].content.doc);
    }

    /** `add_item`. */
    method AddItem(path: Name, item: Item, rand: string, fault: Fault, refused: bool) returns (ok: bool)
      requires TempName(path, rand) !in files
      modifies this
      ensures ok <==> fault.NoFault? && path in old(files) && old(files[path].content).Whole?
      ensures Edited(old(files), files, path, TempName(path, rand), Add(item), ok)
      ensures TempName(path, rand) in files ==> refused
    {
      var doc := ReadJson(path, fault);
      if doc.None? { return false; }
      var items := Items(doc.value);
      items := items + [item];
      ok := AtomicWrite(path, doc.value.(items := Some(items)), rand, fault, refused);
    }

    /** `update_item`; a bad index raises before anything is written. */
    method UpdateItem(path: Name, index: int, item: Item, rand: string, fault: Fault, refused: bool) returns (ok: bool)
      requires TempName(path, rand) !in files
      modifies this
      ensures ok <==> fault.NoFault? && path in old(files) && old(files[path].content).Whole?
                      && Apply(Update(index, item), old(files[path].content.doc)).Some?
      ensures Edited(old(files), files, path, TempName(path, rand), Update(index, item), ok)
      ensures TempName(path, rand) in files ==> refused
    {
      var doc := ReadJson(path, fault);
      if doc.None? { return false; }
      var items := Items(doc.value);
      var k := PyIndex(index, |items|);
      if k.None? { return false; }
      items := items[k.value := item];
      ok := AtomicWrite(path, doc.value.(items := Some(items)), rand, fault, refused);
    }

    /** `delete_item`. */
    method DeleteItem(path: Name, index: int, rand: string, fault: Fault, refused: bool) returns (ok: bool)
      requires TempName(path, rand) !in files
      modifies this
      ensures ok <==> fault.NoFault? && path in old(files) && old(files[path].content).Whole?
                      && Apply(Delete(index), old(files[path].content.doc)).Some?
      ensures Edited(old(files), files, path, TempName(path, rand), Delete(index), ok)
      ensures TempName(path, rand) in files ==> refused
    {
      var doc := ReadJson(path, fault);
      if doc.None? { return false; }
      var items := Items(doc.value);
      var k := PyIndex(index, |items|);
      if k.None? { return false; }
      items := items[..k.value] + items[k.value + 1..];
      ok := AtomicWrite(path, doc.value.(items := Some(items)), rand, fault, refused);
    }

    /** `_cleanup_stale_temp_files`: whatever the pattern matches goes, unless the system refuses. */
    method CleanupStaleTempFiles(refused: set<Name>)
      modifies this
      ensures files == Swept(old(files), refused)
    {
      var left := files.Keys;
      while left != {}
        invariant left <= old(files).Keys
        invariant forall n :: n in files <==> n in old(files) && (n in left || !IsStale(n) || n in refused)
        invariant forall n :: n in files ==> files[n] == old(files)[n]
        decreases |left|
      {
        var n :| n in left;
        left := left - {n};
        StalePattern(n.base);
        if (n.dir == CATALOG_DIR || n.dir == MANIFEST_DIR) && Glob(STALE, n.base) && n !in refused {
          files := files - {n};
        }
      }
    }
  }

  /** The files a cleanup leaves. */
  function Swept(files: map<Name, File>, refused: set<Name>): map<Name, File> {
    map n | n in files && (!IsStale(n) || n in refused) :: files[n]
  }
}
