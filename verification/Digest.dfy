/**
 * The bytes fed to the digest of a package artifact: a file as it is, a directory as length-framed
 * records in path order. The hash itself is not modelled.
 */
module Digest {
  import opened Options
  import opened Ordering

  type Byte = n: nat | n < 256

  type Bytes = seq<Byte>

  /** The UTF-8 encoding of a path, of which only injectivity is used. */
  type PathEncoding = string -> Bytes

  ghost predicate Injective(encode: PathEncoding) {
    forall a, b :: encode(a) == encode(b) ==> a == b
  }

  function Power256(width: nat): nat {
    if width == 0 then 1 else 256 * Power256(width - 1)
  }

  /** `n.to_bytes(width, "big")` for an `n` that fits. */
  function BigEndian(n: nat, width: nat): (bytes: Bytes)
    ensures |bytes| == width
  {
    if width == 0 then [] else BigEndian(n / 256, width - 1) + [n % 256]
  }

  function FromBigEndian(bytes: Bytes): nat {
    if bytes == [] then 0 else 256 * FromBigEndian(bytes[..|bytes| - 1]) + bytes[|bytes| - 1]
  }

  lemma {:induction false} BigEndianRoundTrip(n: nat, width: nat)
    requires n < Power256(width)
    ensures FromBigEndian(BigEndian(n, width)) == n
  {
    if width > 0 {
      BigEndianRoundTrip(n / 256, width - 1);
      assert BigEndian(n, width)[..width - 1] == BigEndian(n / 256, width - 1);
    }
  }

  const LENGTH_BYTES: nat := 8

  /** A length that `to_bytes(8, "big")` accepts. */
  predicate Representable(bytes: Bytes) {
    |bytes| < Power256(LENGTH_BYTES)
  }

  function LengthOf(bytes: Bytes): (r: Bytes)
    ensures |r| == LENGTH_BYTES
  {
    BigEndian(|bytes|, LENGTH_BYTES)
  }

  /** The record of one file: path length, path, content length, content. */
  function Frame(path: Bytes, content: Bytes): Bytes {
    LengthOf(path) + path + LengthOf(content) + content
  }

  datatype File = File(path: string, content: Bytes)

  predicate FileRepresentable(f: File, encode: PathEncoding) {
    Representable(encode(f.path)) && Representable(f.content)
  }

  function Stream(files: seq<File>, encode: PathEncoding): Bytes {
    if files == [] then [] else Frame(encode(files[0].path), files[0].content) + Stream(files[1..], encode)
  }

  /** A length-prefixed field can be read back from the front of any longer stream. */
  lemma FieldInjective(a: Bytes, b: Bytes, x: Bytes, y: Bytes)
    requires Representable(a) && Representable(b)
    requires LengthOf(a) + a + x == LengthOf(b) + b + y
    ensures a == b && x == y
  {
    var s, t := LengthOf(a) + a + x, LengthOf(b) + b + y;
    assert s[..LENGTH_BYTES] == LengthOf(a) && t[..LENGTH_BYTES] == LengthOf(b);
    BigEndianRoundTrip(|a|, LENGTH_BYTES);
    BigEndianRoundTrip(|b|, LENGTH_BYTES);
    assert s[LENGTH_BYTES..LENGTH_BYTES + |a|] == a && t[LENGTH_BYTES..LENGTH_BYTES + |b|] == b;
    assert s[LENGTH_BYTES + |a|..] == x && t[LENGTH_BYTES + |b|..] == y;
  }

  lemma FrameInjective(f: File, g: File, encode: PathEncoding, x: Bytes, y: Bytes)
    requires Injective(encode) && FileRepresentable(f, encode) && FileRepresentable(g, encode)
    requires Frame(encode(f.path), f.content) + x == Frame(encode(g.path), g.content) + y
    ensures f == g && x == y
  {
    var p, q := encode(f.path), encode(g.path);
    var u, v := LengthOf(f.content) + f.content + x, LengthOf(g.content) + g.content + y;
    assert Frame(p, f.content) + x == LengthOf(p) + p + u;
    assert Frame(q, g.content) + y == LengthOf(q) + q + v;
    FieldInjective(p, q, u, v);
    FieldInjective(f.content, g.content, x, y);
  }

  /** Different lists of representable files never give the same bytes, however their contents run together. */
  lemma {:induction false} StreamInjective(a: seq<File>, b: seq<File>, encode: PathEncoding)
    requires Injective(encode)
    requires forall i | 0 <= i < |a| :: FileRepresentable(a[i], encode)
    requires forall i | 0 <= i < |b| :: FileRepresentable(b[i], encode)
    requires Stream(a, encode) == Stream(b, encode)
    ensures a == b
  {
    if a != [] && b != [] {
      FrameInjective(a[0], b[0], encode, Stream(a[1..], encode), Stream(b[1..], encode));
      StreamInjective(a[1..], b[1..], encode);
      assert a == [a[0]] + a[1..] && b == [b[0]] + b[1..];
    }
  }

  // ---- Directories ----

  /** The regular files of a directory by relative path. */
  type Tree = map<string, Bytes>

  function FilesOf(tree: Tree): (files: seq<File>)
    ensures |files| == |SortedIds(tree.Keys)|
    ensures forall i | 0 <= i < |files| ::
      SortedIds(tree.Keys)[i] in tree && files[i] == File(SortedIds(tree.Keys)[i], tree[SortedIds(tree.Keys)[i]])
  {
    var ids := SortedIds(tree.Keys);
    seq(|ids|, i requires 0 <= i < |ids| => assert ids[i] in ids; File(ids[i], tree[ids[i]]))
  }

  predicate TreeRepresentable(tree: Tree, encode: PathEncoding) {
    forall path | path in tree :: FileRepresentable(File(path, tree[path]), encode)
  }

  function TreeStream(tree: Tree, encode: PathEncoding): Bytes {
    Stream(FilesOf(tree), encode)
  }

  /** What the digest of a directory is computed from: equal bytes mean equal trees. */
  lemma TreeStreamInjective(s: Tree, t: Tree, encode: PathEncoding)
    requires Injective(encode) && TreeRepresentable(s, encode) && TreeRepresentable(t, encode)
    requires TreeStream(s, encode) == TreeStream(t, encode)
    ensures s == t
  {
    var a, b := FilesOf(s), FilesOf(t);
    StreamInjective(a, b, encode);
    forall path | path in s ensures path in t && s[path] == t[path] {
      FileOf(s, path);
      var i :| 0 <= i < |a| && a[i] == File(path, s[path]);
      assert b[i] == File(path, s[path]);
    }
    forall path | path in t ensures path in s {
      FileOf(t, path);
      var i :| 0 <= i < |b| && b[i] == File(path, t[path]);
      assert a[i] == File(path, t[path]);
    }
  }

  lemma FileOf(tree: Tree, path: string)
    requires path in tree
    ensures exists i | 0 <= i < |FilesOf(tree)| :: FilesOf(tree)[i] == File(path, tree[path])
  {
    assert path in SortedIds(tree.Keys);
    var i :| 0 <= i < |SortedIds(tree.Keys)| && SortedIds(tree.Keys)[i] == path;
    assert FilesOf(tree)[i] == File(path, tree[path]);
  }

  predicate AllRepresentable(files: seq<File>, encode: PathEncoding) {
    forall i | 0 <= i < |files| :: FileRepresentable(files[i], encode)
  }

  lemma RepresentableFiles(tree: Tree, encode: PathEncoding)
    ensures AllRepresentable(FilesOf(tree), encode) <==> TreeRepresentable(tree, encode)
  {
    forall path | path in tree && AllRepresentable(FilesOf(tree), encode)
      ensures FileRepresentable(File(path, tree[path]), encode)
    {
      FileOf(tree, path);
    }
  }

  /** What a directory walk yields, in whatever order the file system enumerates it. */
  datatype Entry = RegularFile(path: string, content: Bytes) | Directory(path: string) | Symlink(path: string)

  datatype DigestError = SymlinkFound | LengthOverflow

  predicate DistinctPaths(entries: seq<Entry>) {
    forall i, j | 0 <= i < j < |entries| :: entries[i].path != entries[j].path
  }

  predicate HasSymlink(entries: seq<Entry>) {
    exists i | 0 <= i < |entries| :: entries[i].Symlink?
  }

  /** The tree that a walk describes. */
  function TreeOf(entries: seq<Entry>): (tree: Tree)
    ensures forall path | path in tree :: exists i | 0 <= i < |entries| :: entries[i] == RegularFile(path, tree[path])
    ensures DistinctPaths(entries) ==>
      forall i | 0 <= i < |entries| :: entries[i].RegularFile? ==>
        entries[i].path in tree && tree[entries[i].path] == entries[i].content
    ensures DistinctPaths(entries) ==>
      forall i | 0 <= i < |entries| :: !entries[i].RegularFile? ==> entries[i].path !in tree
  {
    if entries == [] then map[]
    else
      var n := |entries| - 1;
      var tree, last := TreeOf(entries[..n]), entries[n];
      assert forall i | 0 <= i < n :: entries[..n][i] == entries[i];
      if last.RegularFile? then tree[last.path := last.content] else tree
  }

  /** Walks that enumerate the same entries in different orders describe the same tree. */
  lemma TreeOrderFree(a: seq<Entry>, b: seq<Entry>)
    requires DistinctPaths(a) && DistinctPaths(b)
    requires forall e :: e in a <==> e in b
    ensures TreeOf(a) == TreeOf(b)
  {
    var s, t := TreeOf(a), TreeOf(b);
    forall path | path in s ensures path in t && t[path] == s[path] {
      assert RegularFile(path, s[path]) in a;
      var j :| 0 <= j < |b| && b[j] == RegularFile(path, s[path]);
    }
    forall path | path in t ensures path in s {
      assert RegularFile(path, t[path]) in b;
      var j :| 0 <= j < |a| && a[j] == RegularFile(path, t[path]);
    }
  }

  /** The directory branch of `_sha256_path`: refuse symlinks, sort the files, and feed the digest record by record. */
  method DirectoryBytes(entries: seq<Entry>, encode: PathEncoding) returns (r: Result<Bytes, DigestError>)
    requires DistinctPaths(entries)
    ensures r == if HasSymlink(entries) then Err(SymlinkFound)
                 else if !TreeRepresentable(TreeOf(entries), encode) then Err(LengthOverflow)
                 else Ok(TreeStream(TreeOf(entries), encode))
    ensures r == Err(SymlinkFound) <==> exists entry | entry in entries :: entry.Symlink?
  {
    if HasSymlink(entries) {
      return Err(SymlinkFound);
    }
    RepresentableFiles(TreeOf(entries), encode);
    r := FilesBytes(FilesOf(TreeOf(entries)), encode);
  }

  /** The loop over the sorted files. */
  method FilesBytes(files: seq<File>, encode: PathEncoding) returns (r: Result<Bytes, DigestError>)
    ensures r == if AllRepresentable(files, encode) then Ok(Stream(files, encode)) else Err(LengthOverflow)
  {
    var digest: Bytes := [];
    for i := 0 to |files|
      invariant forall k | 0 <= k < i :: FileRepresentable(files[k], encode)
      invariant digest + Stream(files[i..], encode) == Stream(files, encode)
    {
      var path, content := encode(files[i].path), files[i].content;
      if !FileRepresentable(files[i], encode) {
        return Err(LengthOverflow);
      }
      assert files[i..][1..] == files[i + 1..];
      assert Stream(files[i..], encode) == Frame(path, content) + Stream(files[i + 1..], encode);
      digest := digest + Frame(path, content);
    }
    assert digest + [] == digest;
    r := Ok(digest);
  }

  /**
   * Order-free and injective together: two walks without symlinks feed the digest the same bytes
   * if and only if they describe the same tree.
   */
  lemma SameBytesIffSameTree(a: seq<Entry>, b: seq<Entry>, encode: PathEncoding)
    requires Injective(encode) && DistinctPaths(a) && DistinctPaths(b)
    requires TreeRepresentable(TreeOf(a), encode) && TreeRepresentable(TreeOf(b), encode)
    ensures TreeStream(TreeOf(a), encode) == TreeStream(TreeOf(b), encode) <==> TreeOf(a) == TreeOf(b)
  {
    if TreeStream(TreeOf(a), encode) == TreeStream(TreeOf(b), encode) {
      TreeStreamInjective(TreeOf(a), TreeOf(b), encode);
    }
  }

  /** The layout of one record, byte by byte: two lengths of eight bytes, each in front of what it measures. */
  lemma {:induction false} FrameLayout(path: Bytes, content: Bytes)
    requires Representable(path) && Representable(content)
    ensures var f, n := Frame(path, content), |path|;
      && |f| == 16 + n + |content|
      && FromBigEndian(f[..8]) == n && f[8..8 + n] == path
      && FromBigEndian(f[8 + n..16 + n]) == |content| && f[16 + n..] == content
  {
    var f, n := Frame(path, content), |path|;
    BigEndianRoundTrip(n, LENGTH_BYTES);
    BigEndianRoundTrip(|content|, LENGTH_BYTES);
    assert f[..8] == LengthOf(path) && f[8..8 + n] == path;
    assert f[8 + n..16 + n] == LengthOf(content) && f[16 + n..] == content;
  }

  /** The most significant byte comes first: what eight bytes are worth. */
  lemma {:induction false} BytesAreWorth(bytes: Bytes)
    requires bytes != []
    ensures FromBigEndian(bytes) == bytes[0] * Power256(|bytes| - 1) + FromBigEndian(bytes[1..])
  {
    if |bytes| > 1 {
      var n := |bytes| - 1;
      BytesAreWorth(bytes[..n]);
      assert bytes[..n][1..] == bytes[1..][..n - 1];
      assert Power256(n) == 256 * Power256(n - 1);
      assert 256 * (bytes[0] * Power256(n - 1)) == bytes[0] * Power256(n);
    } else {
      assert bytes[..0] == [] && bytes[1..] == [];
    }
  }
}
