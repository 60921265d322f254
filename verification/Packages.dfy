/** The integrity hashes of an agent package: written on save, compared on load. */
module Packages {
  import opened Options
  import opened Digest

  /** The digest of an artifact on disk by layer and path, or nothing when computing it raises. */
  type Digests = (Layer, string) -> Option<string>

  datatype Layer = KnowledgeLayer | SkillLayer | ToolLayer

  class Artifact {
    const layer: Layer
    const path: string
    var sha256: string

    constructor (layer: Layer, path: string, sha256: string)
      ensures this.layer == layer && this.path == path && this.sha256 == sha256
    {
      this.layer, this.path, this.sha256 := layer, path, sha256;
    }
  }

  /** The stored hashes of a list of artifacts. */
  function Stored(artifacts: seq<Artifact>): (hashes: seq<string>)
    reads artifacts
    ensures |hashes| == |artifacts|
    ensures forall i | 0 <= i < |artifacts| :: hashes[i] == artifacts[i].sha256
  {
    if artifacts == [] then []
    else Stored(artifacts[..|artifacts| - 1]) + [artifacts[|artifacts| - 1].sha256]
  }

  /** The hashes computed from the files on disk, in manifest order; nothing when one of them raises. */
  function Computed(artifacts: seq<Artifact>, digests: Digests): (hashes: Option<seq<string>>)
    ensures hashes.Some? <==> forall i | 0 <= i < |artifacts| :: digests(artifacts[i].layer, artifacts[i].path).Some?
    ensures hashes.Some? ==> |hashes.value| == |artifacts|
    ensures hashes.Some? ==> forall i | 0 <= i < |artifacts| ::
      Some(hashes.value[i]) == digests(artifacts[i].layer, artifacts[i].path)
  {
    if artifacts == [] then Some([])
    else
      var n := |artifacts| - 1;
      var before, last := Computed(artifacts[..n], digests), digests(artifacts[n].layer, artifacts[n].path);
      if before.None? || last.None? then None else Some(before.value + [last.value])
  }

  /** Every artifact is there and has the digest that is stored for it. */
  predicate AllMatch(artifacts: seq<Artifact>, digests: Digests)
    reads artifacts
  {
    forall i | 0 <= i < |artifacts| :: digests(artifacts[i].layer, artifacts[i].path) == Some(artifacts[i].sha256)
  }

  lemma MatchExact(artifacts: seq<Artifact>, digests: Digests)
    ensures Computed(artifacts, digests) == Some(Stored(artifacts)) <==> AllMatch(artifacts, digests)
  {
    if AllMatch(artifacts, digests) {
      assert Computed(artifacts, digests).value == Stored(artifacts);
    }
  }

  class AgentPackage {
    const knowledge: seq<Artifact>
    const skills: seq<Artifact>
    const tools: Artifact
    const entrypoint: string

    constructor (knowledge: seq<Artifact>, skills: seq<Artifact>, tools: Artifact, entrypoint: string)
      ensures this.knowledge == knowledge && this.skills == skills && this.tools == tools && this.entrypoint == entrypoint
    {
      this.knowledge, this.skills, this.tools, this.entrypoint := knowledge, skills, tools, entrypoint;
    }

    /** Knowledge, skills, then the tool root: the order of the manifest. */
    function Artifacts(): seq<Artifact> {
      knowledge + skills + [tools]
    }

    /** `_set_hashes`: three slices of the computed list, zipped onto the artifacts; raises before writing when a digest does. */
    method SetHashes(digests: Digests) returns (ok: bool)
      modifies Artifacts()
      ensures ok <==> Computed(Artifacts(), digests).Some?
      ensures ok ==> AllMatch(Artifacts(), digests)
      ensures !ok ==> forall a | a in Artifacts() :: a.sha256 == old(a.sha256)
    {
      var computed := Computed(Artifacts(), digests);
      if computed.None? {
        return false;
      }
      var hashes, k := computed.value, |knowledge|;
      assert forall i | 0 <= i < |knowledge| :: Artifacts()[i] == knowledge[i];
      assert forall i | 0 <= i < |skills| :: Artifacts()[k + i] == skills[i];
      SetSlice(knowledge, hashes[..k], digests);
      SetSlice(skills, hashes[k..k + |skills|], digests);
      tools.sha256 := hashes[|hashes| - 1];
      assert Artifacts()[|hashes| - 1] == tools;
      forall i | 0 <= i < |hashes| ensures Artifacts()[i].sha256 == hashes[i] {
        assert Some(hashes[i]) == digests(Artifacts()[i].layer, Artifacts()[i].path);
      }
      return true;
    }

    /** One `zip(..., strict=True)` loop: each artifact gets its hash. */
    method SetSlice(artifacts: seq<Artifact>, hashes: seq<string>, ghost digests: Digests)
      requires |artifacts| == |hashes|
      requires forall i | 0 <= i < |artifacts| :: Some(hashes[i]) == digests(artifacts[i].layer, artifacts[i].path)
      modifies artifacts
      ensures forall a | a in artifacts :: Some(a.sha256) == digests(a.layer, a.path)
    {
      for i := 0 to |artifacts|
        modifies artifacts
        invariant forall k | 0 <= k < i :: Some(artifacts[k].sha256) == digests(artifacts[k].layer, artifacts[k].path)
      {
        artifacts[i].sha256 := hashes[i];
      }
    }

    /** `verify_hashes`: accepts exactly when every artifact is there and has the digest stored for it. */
    method VerifyHashes(digests: Digests) returns (ok: bool)
      ensures ok <==> AllMatch(Artifacts(), digests)
    {
      var expected := Computed(Artifacts(), digests);
      ok := expected.Some? && expected.value == Stored(Artifacts());
      MatchExact(Artifacts(), digests);
    }
  }

  // ---- What verification says about the files ----

  /** What a path resolves to: a file, or a folder as its regular files and whether it holds a symlink. */
  datatype OnDisk = PlainFile(content: Bytes) | Folder(tree: Tree, linked: bool)

  /** The bytes that `_sha256_path` digests, or nothing where it raises. */
  function BytesOf(d: OnDisk, encode: PathEncoding): Option<Bytes> {
    match d
    case PlainFile(content) => Some(content)
    case Folder(tree, linked) =>
      if !linked && TreeRepresentable(tree, encode) then Some(TreeStream(tree, encode)) else None
  }

  type Disk = (Layer, string) -> Option<OnDisk>

  /** What is digested for an artifact: the tool root has to be a folder that holds the entrypoint of the server. */
  function ArtifactBytes(disk: Disk, entrypoint: string, encode: PathEncoding, layer: Layer, path: string): Option<Bytes> {
    var d := disk(layer, path);
    if d.None? || (layer.ToolLayer? && !(d.value.Folder? && entrypoint in d.value.tree)) then None
    else BytesOf(d.value, encode)
  }

  function DigestsOf(disk: Disk, entrypoint: string, hash: Bytes -> string, encode: PathEncoding): Digests {
    (layer, path) =>
      var bytes := ArtifactBytes(disk, entrypoint, encode, layer, path);
      if bytes.None? then None else Some(hash(bytes.value))
  }

  /** `other` is a file that holds the very bytes digested for `folder`. */
  predicate Imitates(folder: OnDisk, other: OnDisk, encode: PathEncoding) {
    folder.Folder? && other.PlainFile? && BytesOf(folder, encode) == Some(other.content)
  }

  /** What verification takes for a saved artifact: the same again, or, outside the tools, an imitation of the other kind. */
  predicate PassesFor(layer: Layer, saved: OnDisk, now: OnDisk, encode: PathEncoding) {
    now == saved || (!layer.ToolLayer? && (Imitates(saved, now, encode) || Imitates(now, saved, encode)))
  }

  lemma {:induction false} SameBytesExact(
    layer: Layer, path: string, saved: Disk, now: Disk, entrypoint: string, encode: PathEncoding)
    requires Injective(encode) && ArtifactBytes(saved, entrypoint, encode, layer, path).Some?
    ensures ArtifactBytes(now, entrypoint, encode, layer, path) == ArtifactBytes(saved, entrypoint, encode, layer, path)
      <==> now(layer, path).Some? && PassesFor(layer, saved(layer, path).value, now(layer, path).value, encode)
  {
    var before, after := saved(layer, path).value, now(layer, path);
    if after.Some? && before.Folder? && after.value.Folder?
       && BytesOf(after.value, encode) == BytesOf(before, encode) {
      TreeStreamInjective(before.tree, after.value.tree, encode);
    }
  }

  /**
   * With a hash that has no collisions, a saved package verifies if and only if every artifact is
   * still there and is what it was (every file its bytes, every folder its whole tree) or, outside
   * the tools, has changed kind and the file holds the very bytes digested for the folder.
   */
  lemma {:induction false} VerifiesExactly(p: AgentPackage, saved: Disk, now: Disk, hash: Bytes -> string, encode: PathEncoding)
    requires Injective(encode) && forall a, b :: hash(a) == hash(b) ==> a == b
    requires AllMatch(p.Artifacts(), DigestsOf(saved, p.entrypoint, hash, encode))
    ensures AllMatch(p.Artifacts(), DigestsOf(now, p.entrypoint, hash, encode))
      <==> forall a | a in p.Artifacts() ::
             && saved(a.layer, a.path).Some? && now(a.layer, a.path).Some?
             && PassesFor(a.layer, saved(a.layer, a.path).value, now(a.layer, a.path).value, encode)
  {
    var artifacts := p.Artifacts();
    forall i | 0 <= i < |artifacts|
      ensures var layer, path := artifacts[i].layer, artifacts[i].path;
        && saved(layer, path).Some?
        && (DigestsOf(now, p.entrypoint, hash, encode)(layer, path) == Some(artifacts[i].sha256)
            <==> now(layer, path).Some? && PassesFor(layer, saved(layer, path).value, now(layer, path).value, encode))
    {
      var layer, path := artifacts[i].layer, artifacts[i].path;
      assert DigestsOf(saved, p.entrypoint, hash, encode)(layer, path) == Some(artifacts[i].sha256);
      SameBytesExact(layer, path, saved, now, p.entrypoint, encode);
    }
  }

  /** The disk with something else at one path. */
  function Swapped(disk: Disk, layer: Layer, path: string, other: OnDisk): Disk {
    (l, q) => if l == layer && q == path then Some(other) else disk(l, q)
  }

  /**
   * Kinds are not framed: in every package that verifies, any folder outside the tools can be
   * replaced by a file with the bytes of its digest, and the package still verifies, whatever the hash.
   */
  lemma {:induction false} FilePassesForFolder(
    p: AgentPackage, disk: Disk, i: nat, hash: Bytes -> string, encode: PathEncoding)
    requires AllMatch(p.Artifacts(), DigestsOf(disk, p.entrypoint, hash, encode)) && i < |p.Artifacts()|
    requires !p.Artifacts()[i].layer.ToolLayer?
    requires disk(p.Artifacts()[i].layer, p.Artifacts()[i].path).Some?
    requires disk(p.Artifacts()[i].layer, p.Artifacts()[i].path).value.Folder?
    ensures var layer, path := p.Artifacts()[i].layer, p.Artifacts()[i].path;
      var folder := disk(layer, path).value;
      var other := PlainFile(TreeStream(folder.tree, encode));
      && other != folder
      && AllMatch(p.Artifacts(), DigestsOf(Swapped(disk, layer, path, other), p.entrypoint, hash, encode))
  {
    var artifacts := p.Artifacts();
    var layer, path := artifacts[i].layer, artifacts[i].path;
    var other := PlainFile(TreeStream(disk(layer, path).value.tree, encode));
    var swapped := Swapped(disk, layer, path, other);
    assert DigestsOf(disk, p.entrypoint, hash, encode)(layer, path) == Some(artifacts[i].sha256);
    forall k | 0 <= k < |artifacts|
      ensures DigestsOf(swapped, p.entrypoint, hash, encode)(artifacts[k].layer, artifacts[k].path) == Some(artifacts[k].sha256)
    {
      var l, q := artifacts[k].layer, artifacts[k].path;
      assert DigestsOf(disk, p.entrypoint, hash, encode)(l, q) == Some(artifacts[k].sha256);
      assert ArtifactBytes(swapped, p.entrypoint, encode, l, q) == ArtifactBytes(disk, p.entrypoint, encode, l, q);
    }
  }

  /** A disk with one artifact among the knowledge and a tool folder. */
  function NotesDisk(notes: OnDisk, tools: Tree): Disk {
    (layer, _) => if layer == KnowledgeLayer then Some(notes) else if layer == ToolLayer then Some(Folder(tools, false)) else None
  }

  lemma NotesDigests(notes: OnDisk, tools: Tree, entrypoint: string, hash: Bytes -> string, encode: PathEncoding, path: string)
    requires TreeRepresentable(tools, encode) && entrypoint in tools && BytesOf(notes, encode) == Some([])
    ensures var digests := DigestsOf(NotesDisk(notes, tools), entrypoint, hash, encode);
      && digests(KnowledgeLayer, path) == Some(hash([]))
      && digests(ToolLayer, path) == Some(hash(TreeStream(tools, encode)))
  {
    var disk := NotesDisk(notes, tools);
    assert disk(KnowledgeLayer, path) == Some(notes) && disk(ToolLayer, path) == Some(Folder(tools, false));
    assert ArtifactBytes(disk, entrypoint, encode, KnowledgeLayer, path) == Some([]);
    assert ArtifactBytes(disk, entrypoint, encode, ToolLayer, path) == Some(TreeStream(tools, encode));
  }

  lemma EmptyFolder(encode: PathEncoding)
    ensures BytesOf(Folder(map[], false), encode) == Some([])
  {
    var none: Tree := map[];
    assert none.Keys == {} && FilesOf(none) == [];
  }

  /** One such package from saving to loading: it is saved with an empty folder, and accepted with an empty file. */
  method SaveThenSwap(tools: Tree, entrypoint: string, hash: Bytes -> string, encode: PathEncoding)
    returns (saved: bool, accepted: bool)
    requires TreeRepresentable(tools, encode) && entrypoint in tools
    ensures saved && accepted
  {
    var notes := new Artifact(KnowledgeLayer, "notes", "");
    var root := new Artifact(ToolLayer, "mcp", "");
    var p := new AgentPackage([notes], [], root, entrypoint);
    assert p.Artifacts() == [notes, root];
    EmptyFolder(encode);
    var before, after := NotesDisk(Folder(map[], false), tools), NotesDisk(PlainFile([]), tools);
    NotesDigests(Folder(map[], false), tools, entrypoint, hash, encode, "notes");
    NotesDigests(Folder(map[], false), tools, entrypoint, hash, encode, "mcp");
    NotesDigests(PlainFile([]), tools, entrypoint, hash, encode, "notes");
    NotesDigests(PlainFile([]), tools, entrypoint, hash, encode, "mcp");
    saved := p.SetHashes(DigestsOf(before, entrypoint, hash, encode));
    accepted := p.VerifyHashes(DigestsOf(after, entrypoint, hash, encode));
  }
}
