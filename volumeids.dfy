/**
 * Volume identifiers `<storage>:<content>/<name>`: how the storage layer builds
 * them, reads them back, and chooses the one a delete request targets.
 */
module VolumeIds {
  import opened Common
  import FilePath

  /** The three parts of a volume identifier. */
  datatype VolumeParts = VolumeParts(storage: string, content: string, name: string)

  /**
   * The identifier of `name` of content class `content` on storage `storage`:
   * the storage, a ':' right after it, the class, a '/' right after it, then the name.
   */
  function VolumeId(storage: string, content: string, name: string): (v: string)
    ensures |v| == |storage| + |content| + |name| + 2
    ensures v[|storage|] == ':' && v[|storage| + 1 + |content|] == '/'
    ensures v[..|storage|] == storage && v[|storage| + 1..|storage| + 1 + |content|] == content
    ensures v[|v| - |name|..] == name
  {
    storage + ":" + content + "/" + name
  }

  /** The position of the first `ch` in `s`, if any. */
  function IndexOf(s: string, ch: char): (r: Option<nat>)
    ensures r.None? <==> ch !in s
    ensures r.Some? ==> r.value < |s| && s[r.value] == ch && ch !in s[..r.value]
  {
    if s == [] then None
    else if s[0] == ch then Some(0)
    else match IndexOf(s[1..], ch)
      case None => None
      case Some(i) =>
        assert s[..i + 1] == [s[0]] + s[1..][..i];
        Some(i + 1)
  }

  /**
   * Reads a volume identifier back: the storage ends at the first ':', the
   * content at the first '/' after it; the rest is the name.
   */
  function SplitVolumeId(v: string): (r: Option<VolumeParts>)
  {
    match IndexOf(v, ':')
    case None => None
    case Some(i) =>
      match IndexOf(v[i + 1..], '/')
      case None => None
      case Some(j) => Some(VolumeParts(v[..i], v[i + 1..][..j], v[i + 1..][j + 1..]))
  }

  /** The first `ch` in `s` is at `i` when `s[i]` is `ch` and no earlier character is. */
  lemma IndexOfAt(s: string, ch: char, i: nat)
    requires i < |s| && s[i] == ch && ch !in s[..i]
    ensures IndexOf(s, ch) == Some(i)
  {
  }

  /** Reading back a built identifier gives its parts, when the storage has no ':' and the class no '/'. */
  lemma SplitVolumeIdOfVolumeId(storage: string, content: string, name: string)
    requires ':' !in storage && '/' !in content
    ensures SplitVolumeId(VolumeId(storage, content, name)) == Some(VolumeParts(storage, content, name))
  {
    var v := VolumeId(storage, content, name);
    var i := |storage|;
    var rest := content + "/" + name;
    assert v == storage + ":" + rest;
    assert v[..i] == storage && v[i] == ':' && v[i + 1..] == rest;
    IndexOfAt(v, ':', i);
    var j := |content|;
    assert rest[..j] == content && rest[j] == '/' && rest[j + 1..] == name;
    IndexOfAt(rest, '/', j);
  }

  /** Every identifier that reads back is the one built from its parts, and its parts obey the separators' rules. */
  lemma VolumeIdOfSplitVolumeId(v: string)
    requires SplitVolumeId(v).Some?
    ensures var p := SplitVolumeId(v).value;
      ':' !in p.storage && '/' !in p.content && VolumeId(p.storage, p.content, p.name) == v
  {
  }

  /**
   * The identifier a retrieved ISO or container template ends up with: the
   * decoded one, or `<storage>:<content>/<name>` when the response had none.
   */
  function FilledVolId(decoded: string, storage: string, content: string, name: string): (v: string)
    ensures v != []
    ensures decoded != [] ==> v == decoded
    ensures decoded == [] ==> v == VolumeId(storage, content, name)
  {
    if decoded == [] then VolumeId(storage, content, name) else decoded
  }

  /**
   * The identifier a delete request targets: the item's own identifier when
   * it has one, otherwise one rebuilt from the base name of its path; None
   * when the item has neither.
   */
  function ResolveVolId(storage: string, content: string, volId: string, path: string): (r: Option<string>)
    ensures r.None? <==> volId == [] && path == []
    ensures volId != [] ==> r == Some(volId)
    ensures volId == [] && path != [] ==> r == Some(VolumeId(storage, content, FilePath.Base(path)))
    ensures r.Some? ==> r.value != []
  {
    if volId == [] && path == [] then None
    else if volId != [] then Some(volId)
    else Some(VolumeId(storage, content, FilePath.Base(path)))
  }

  /**
   * An item known only by its path `dir/file` is deleted as
   * `<storage>:<content>/file`, and that identifier reads back to those parts.
   */
  lemma ResolveVolIdFromPath(storage: string, content: string, dir: string, file: string)
    requires file != [] && '/' !in file
    requires ':' !in storage && '/' !in content
    ensures ResolveVolId(storage, content, [], dir + "/" + file) == Some(VolumeId(storage, content, file))
    ensures SplitVolumeId(ResolveVolId(storage, content, [], dir + "/" + file).value)
      == Some(VolumeParts(storage, content, file))
  {
    FilePath.BaseOfJoin(dir, file);
    SplitVolumeIdOfVolumeId(storage, content, file);
  }

  /** The worked example: a container template cached under `local` is deleted as `local:vztmpl/foo.tar.gz`. */
  lemma ResolveVolIdExample(path: string)
    requires path == "/mnt/pve/local/template/cache/foo.tar.gz"
    ensures ResolveVolId("local", "vztmpl", "", path) == Some("local:vztmpl/foo.tar.gz")
  {
    ExampleBase(path);
    ExampleVolumeId();
  }

  /** The base name in the worked example: the path is a directory, '/', and a plain file name. */
  lemma ExampleBase(path: string)
    requires path == "/mnt/pve/local/template/cache/foo.tar.gz"
    ensures FilePath.Base(path) == "foo.tar.gz"
  {
    var dir, name := "/mnt/pve/local/template/cache", "foo.tar.gz";
    assert path == dir + "/" + name;
    FilePath.BaseOfJoin(dir, name);
  }

  /** The identifier built in the worked example. */
  lemma ExampleVolumeId()
    ensures VolumeId("local", "vztmpl", "foo.tar.gz") == "local:vztmpl/foo.tar.gz"
  {
  }
}
