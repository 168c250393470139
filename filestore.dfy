/** The in-memory file registry: every saved file gets a fresh id, its bytes
    go to `<base>/<id><suffix>` on disk, and a record of it is kept in a
    dictionary from id to metadata that only ever grows. */
module FileStore {
  import opened Wrappers
  import opened Text

  /** The record kept for a saved file. */
  datatype Meta = Meta(id: string, path: string, filename: string, contentType: Option<string>)

  // ---------------------------------------------------------------------
  // Path names (POSIX pathlib)

  /** The last component of a path, `PurePosixPath(p).name`: empty and "."
      components are dropped when the path is parsed, and the name is the
      last component left, or "" when none is. */
  function Name(path: string): string {
    LastComponent(Split(path, "/"))
  }

  function LastComponent(parts: seq<string>): string
    decreases |parts|
  {
    if parts == [] then []
    else
      var last := parts[|parts| - 1];
      if last == [] || last == "." then LastComponent(parts[..|parts| - 1]) else last
  }

  /** `PurePath.suffix` of a name: from its last dot to the end, provided that
      dot is neither the first nor the last character; "" otherwise. */
  function Suffix(name: string): (ext: string)
    ensures ext == [] || (|ext| >= 2 && ext[0] == '.' && |ext| < |name| && EndsWith(name, ext))
  {
    match LastIndexOf(name, '.')
    case Some(i) =>
      if 0 < i < |name| - 1 then name[i..] else []
    case None => []
  }

  /** `base / name` for a relative `name`. */
  function JoinPath(base: string, name: string): string {
    if base != [] && base[|base| - 1] == '/' then base + name else base + "/" + name
  }

  /** Where `save_file` puts the bytes of `filename` under id `fid`. */
  function StoredPath(base: string, fid: string, filename: string): string {
    JoinPath(base, fid + Suffix(Name(filename)))
  }

  /** The suffix is the part after the last dot, when that dot is neither
      the first nor the last character of the name. */
  lemma SuffixAfterLastDot(name: string, i: nat)
    requires i < |name| && name[i] == '.' && '.' !in name[i + 1..]
    ensures 0 < i < |name| - 1 ==> Suffix(name) == name[i..]
    ensures (i == 0 || i == |name| - 1) ==> Suffix(name) == []
  {
  }

  /** A name without a dot has no suffix. */
  lemma NoDotNoSuffix(name: string)
    requires '.' !in name
    ensures Suffix(name) == []
  {
  }

  /** With a one-character separator, splitting around one separator splits
      the two sides separately. */
  lemma {:induction false} SplitAround(a: string, b: string, c: char)
    ensures Split(a + [c] + b, [c]) == Split(a, [c]) + Split(b, [c])
    decreases |a|
  {
    var s := a + [c] + b;
    if a == [] {
      assert StartsWith(s, [c]);
      assert s[1..] == b;
    } else if a[0] == c {
      assert StartsWith(s, [c]) && StartsWith(a, [c]);
      assert s[1..] == a[1..] + [c] + b;
      SplitAround(a[1..], b, c);
    } else {
      assert !StartsWith(s, [c]) && !StartsWith(a, [c]);
      assert s[1..] == a[1..] + [c] + b;
      SplitAround(a[1..], b, c);
      var ra := Split(a[1..], [c]);
      assert (ra + Split(b, [c]))[1..] == ra[1..] + Split(b, [c]);
    }
  }

  /** A text without the separator splits into itself. */
  lemma {:induction false} SplitWithout(b: string, c: char)
    requires c !in b
    ensures Split(b, [c]) == [b]
    decreases |b|
  {
    if b != [] {
      assert b[..1] == [b[0]];
      assert c !in b[1..] by {
        assert forall j :: 0 <= j < |b| - 1 ==> b[1..][j] == b[j + 1];
      }
      SplitWithout(b[1..], c);
      assert [b[0]] + b[1..] == b;
    }
  }

  /** The file name of a stored path is the id followed by the original
      suffix, so an id without dots or slashes keeps the original extension. */
  lemma StoredPathKeepsSuffix(base: string, fid: string, filename: string)
    requires fid != [] && '.' !in fid && '/' !in fid
    ensures Name(StoredPath(base, fid, filename)) == fid + Suffix(Name(filename))
    ensures Suffix(Name(StoredPath(base, fid, filename))) == Suffix(Name(filename))
  {
    var ext := Suffix(Name(filename));
    var leaf := fid + ext;
    assert '/' !in ext by {
      SuffixOfName(filename);
    }
    assert '/' !in leaf by {
      assert forall j :: 0 <= j < |leaf| ==> leaf[j] == if j < |fid| then fid[j] else ext[j - |fid|];
    }
    SplitWithout(leaf, '/');
    var dir := if base != [] && base[|base| - 1] == '/' then base[..|base| - 1] else base;
    assert StoredPath(base, fid, filename) == dir + ['/'] + leaf;
    SplitAround(dir, leaf, '/');
    var parts := Split(dir, "/") + [leaf];
    assert parts[|parts| - 1] == leaf;
    assert leaf != "." by {
      assert |fid| == 1 ==> fid[0] != '.';
      if |leaf| == 1 {
        assert leaf[0] == fid[0];
      }
    }
    LeafSuffix(fid, ext);
  }

  /** A name has no slash, so neither has its suffix. */
  lemma SuffixOfName(filename: string)
    ensures '/' !in Suffix(Name(filename))
  {
    var n := Name(filename);
    NameHasNoSlash(Split(filename, "/"), filename);
    var ext := Suffix(n);
    if ext != [] {
      assert forall j :: 0 <= j < |ext| ==> ext[j] == n[|n| - |ext| + j];
    }
  }

  /** Every component of a split on "/" is free of slashes. */
  lemma NameHasNoSlash(parts: seq<string>, filename: string)
    requires parts == Split(filename, "/")
    ensures '/' !in LastComponent(parts)
  {
    SplitPartsHaveNoSep(filename, '/');
    LastComponentIsPart(parts);
  }

  lemma {:induction false} LastComponentIsPart(parts: seq<string>)
    ensures LastComponent(parts) == [] || LastComponent(parts) in parts
    decreases |parts|
  {
    if parts != [] {
      var last := parts[|parts| - 1];
      if last == [] || last == "." {
        LastComponentIsPart(parts[..|parts| - 1]);
      }
    }
  }

  lemma {:induction false} SplitPartsHaveNoSep(s: string, c: char)
    ensures forall p :: p in Split(s, [c]) ==> c !in p
    decreases |s|
  {
    if StartsWith(s, [c]) {
      SplitPartsHaveNoSep(s[1..], c);
    } else if s != [] {
      SplitPartsHaveNoSep(s[1..], c);
      var rest := Split(s[1..], [c]);
      assert s[0] != c by {
        assert s[..1] == [s[0]];
      }
      assert c !in [s[0]] + rest[0];
      forall p | p in rest[1..]
        ensures c !in p
      {
        assert p in rest;
      }
    }
  }

  /** The suffix of `fid + ext`, for an id without dots and a suffix `ext`. */
  lemma LeafSuffix(fid: string, ext: string)
    requires fid != [] && '.' !in fid
    requires ext == [] || (|ext| >= 2 && ext[0] == '.' && '.' !in ext[1..])
    ensures Suffix(fid + ext) == ext
  {
    var leaf := fid + ext;
    if ext == [] {
      assert leaf == fid;
    } else {
      var i := |fid|;
      assert leaf[i] == '.';
      assert leaf[i + 1..] == ext[1..];
      assert leaf[i..] == ext;
      SuffixAfterLastDot(leaf, i);
    }
  }

  // ---------------------------------------------------------------------
  // The registry

  /** `_REG.get(file_id)` on a registry value. */
  function Lookup(reg: map<string, Meta>, id: string): Option<Meta> {
    if id in reg then Some(reg[id]) else None
  }

  /** The path part of a lookup, as `get_path` returns it. */
  function PathOf(m: Option<Meta>): Option<string> {
    match m
    case Some(meta) => Some(meta.path)
    case None => None
  }

  /** The registry with its base directory. */
  class Store {
    const base: string
    var reg: map<string, Meta>

    /** A fresh registry: nothing saved yet. */
    constructor (base: string)
      ensures this.base == base && reg == map[]
    {
      this.base := base;
      reg := map[];
    }

    /** `save_file(content, filename, content_type)`, with `fid` the id
        `uuid4().hex` draws: registers the record under `fid` and returns
        it. A colliding id overwrites, as the dictionary assignment does. */
    method SaveFile(content: bytes, filename: string, contentType: Option<string>, fid: string) returns (id: string)
      modifies this
      ensures id == fid
      ensures reg == old(reg)[fid := Meta(fid, StoredPath(base, fid, filename), filename, contentType)]
      ensures fid !in old(reg) ==> |reg| == |old(reg)| + 1
      ensures forall k :: k in old(reg) ==> k in reg
      ensures forall k :: k in old(reg) && k != fid ==> reg[k] == old(reg)[k]
    {
      var ext := Suffix(Name(filename));
      var path := JoinPath(base, fid + ext);
      reg := reg[fid := Meta(fid, path, filename, contentType)];
      id := fid;
    }

    /** `get_meta(file_id)`. */
    function GetMeta(id: string): (m: Option<Meta>)
      reads this
      ensures m.Some? <==> id in reg
      ensures m.Some? ==> m.value == reg[id]
    {
      Lookup(reg, id)
    }

    /** `get_path(file_id)`: the stored path, present exactly when the record is. */
    function GetPath(id: string): (p: Option<string>)
      reads this
      ensures p.None? <==> GetMeta(id).None?
      ensures p.Some? ==> p.value == GetMeta(id).value.path
      ensures p == PathOf(Lookup(reg, id))
    {
      var m := Lookup(reg, id);
      if m.Some? then Some(m.value.path) else None
    }
  }

  /** A record saved under a fresh id is found again by its id, with the
      path under the base directory, and every other id answers as before. */
  lemma SavedIsFound(reg: map<string, Meta>, base: string, filename: string, contentType: Option<string>, fid: string, other: string)
    requires fid !in reg
    ensures var reg' := reg[fid := Meta(fid, StoredPath(base, fid, filename), filename, contentType)];
      && Lookup(reg', fid) == Some(Meta(fid, StoredPath(base, fid, filename), filename, contentType))
      && PathOf(Lookup(reg', fid)) == Some(StoredPath(base, fid, filename))
      && (other != fid ==> Lookup(reg', other) == Lookup(reg, other))
      && Lookup(reg, fid) == None
  {
  }
}
