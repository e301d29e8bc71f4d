/**
 * `get_texture_name_from_file_path` of `texture_utils.ts`: the last path segment, cut at the
 * first `?` or `#`, without its final extension.
 */
module TextureUtils {

  /** `s.lastIndexOf(c)`: the last position holding `c`, or -1. */
  function LastIndexOf(s: string, c: char): (r: int)
    ensures -1 <= r < |s|
    ensures r >= 0 ==> s[r] == c
    ensures forall k :: r < k < |s| ==> s[k] != c
  {
    if s == [] then -1
    else if s[|s| - 1] == c then |s| - 1
    else LastIndexOf(s[..|s| - 1], c)
  }

  /** `s.split(/[?#]/)[0]`: everything before the first `?` or `#`. */
  function BeforeQuery(s: string): (r: string)
    ensures r <= s
    ensures forall k :: 0 <= k < |r| ==> r[k] != '?' && r[k] != '#'
    ensures |r| < |s| ==> s[|r|] == '?' || s[|r|] == '#'
  {
    if s == [] || s[0] == '?' || s[0] == '#' then []
    else [s[0]] + BeforeQuery(s[1..])
  }

  /**
   * `s.replace(/\.[^/.]+$/, "")`: drops the last `.` and what follows it when that tail is
   * non-empty and free of `/`; otherwise `s` is unchanged.
   */
  function StripExtension(s: string): (r: string)
    ensures r <= s
  {
    var k := LastIndexOf(s, '.');
    if 0 <= k < |s| - 1 && '/' !in s[k + 1..] then s[..k] else s
  }

  /** `get_texture_name_from_file_path(file_path)`. */
  function TextureName(path: string): string {
    var fileName := path[LastIndexOf(path, '/') + 1..];
    StripExtension(BeforeQuery(fileName))
  }

  /** The name is a prefix of the last path segment and holds no `/`, `?` or `#`. */
  lemma TextureNameShape(path: string)
    ensures var segment := path[LastIndexOf(path, '/') + 1..];
      TextureName(path) <= segment
    ensures forall k :: 0 <= k < |TextureName(path)| ==>
      TextureName(path)[k] != '/' && TextureName(path)[k] != '?' && TextureName(path)[k] != '#'
  {
    var segment := path[LastIndexOf(path, '/') + 1..];
    LastSegment(path);
    CleanSegment(segment);
  }

  /** What follows the last `/` holds no `/`. */
  lemma LastSegment(path: string)
    ensures var segment := path[LastIndexOf(path, '/') + 1..];
      forall k :: 0 <= k < |segment| ==> segment[k] != '/'
  {
    var r := LastIndexOf(path, '/');
    var segment := path[r + 1..];
    forall k | 0 <= k < |segment|
      ensures segment[k] != '/'
    {
      assert segment[k] == path[r + 1 + k] && r < r + 1 + k < |path|;
    }
  }

  /** Cutting the query and the extension off a segment without `/` keeps a clean prefix of it. */
  lemma CleanSegment(segment: string)
    requires forall k :: 0 <= k < |segment| ==> segment[k] != '/'
    ensures StripExtension(BeforeQuery(segment)) <= segment
    ensures var name := StripExtension(BeforeQuery(segment));
      forall k :: 0 <= k < |name| ==> name[k] != '/' && name[k] != '?' && name[k] != '#'
  {
    var clean := BeforeQuery(segment);
    var name := StripExtension(clean);
    PrefixOfPrefix(name, clean, segment);
    PrefixAvoids(clean, segment, '/');
    PrefixAvoids(name, clean, '/');
    PrefixAvoids(name, clean, '?');
    PrefixAvoids(name, clean, '#');
  }

  lemma PrefixOfPrefix(a: string, b: string, c: string)
    requires a <= b && b <= c
    ensures a <= c
  {
    assert c[..|a|] == b[..|a|];
  }

  /** A prefix of a string without `c` holds no `c` either. */
  lemma PrefixAvoids(p: string, s: string, c: char)
    requires p <= s && forall k :: 0 <= k < |s| ==> s[k] != c
    ensures forall k :: 0 <= k < |p| ==> p[k] != c
  {
    assert forall k :: 0 <= k < |p| ==> p[k] == s[k];
  }

  /** Only the final extension goes: the name is the clean segment up to its last dot. */
  lemma StripsLastExtensionOnly(base: string, ext: string)
    requires '/' !in base && '/' !in ext && '.' !in ext && ext != []
    ensures StripExtension(base + "." + ext) == base
  {
    var s := base + "." + ext;
    assert s[|base|] == '.';
    assert forall k :: |base| < k < |s| ==> s[k] == ext[k - |base| - 1];
    assert LastIndexOf(s, '.') == |base|;
    assert s[|base| + 1..] == ext;
    assert s[..|base|] == base;
  }

  /** A name without a dot, or ending in a bare dot, is kept as it is. */
  lemma KeepsUndottedAndTrailingDot(s: string)
    ensures '.' !in s ==> StripExtension(s) == s
    ensures s != [] && s[|s| - 1] == '.' ==> StripExtension(s) == s
  {
  }

  /** A string without `?` or `#` passes the query cut unchanged. */
  lemma {:induction false} BeforeQueryUnmarked(s: string)
    requires '?' !in s && '#' !in s
    ensures BeforeQuery(s) == s
  {
    if s != [] {
      BeforeQueryUnmarked(s[1..]);
    }
  }

  /** The last `/` of `dir + "/" + tail` is the separator when `tail` has none. */
  lemma LastSlash(dir: string, tail: string)
    requires '/' !in tail
    ensures LastIndexOf(dir + "/" + tail, '/') == |dir|
    ensures (dir + "/" + tail)[|dir| + 1..] == tail
  {
    var s := dir + "/" + tail;
    assert s[|dir|] == '/';
    assert forall k :: |dir| < k < |s| ==> s[k] == tail[k - |dir| - 1];
  }

  /**
   * A texture path `dir/base.ext` names the texture `base`, whatever characters other than
   * `/`, `?`, `#` the base holds (so placeholders such as `{dpr}` survive).
   */
  lemma TextureNameOfPath(dir: string, base: string, ext: string)
    requires '/' !in base && '?' !in base && '#' !in base
    requires '/' !in ext && '?' !in ext && '#' !in ext && '.' !in ext && ext != []
    ensures TextureName(dir + "/" + (base + "." + ext)) == base
  {
    var tail := base + "." + ext;
    assert '/' !in tail && '?' !in tail && '#' !in tail by {
      assert forall k :: 0 <= k < |tail| ==> tail[k] == (if k < |base| then base[k] else if k == |base| then '.' else ext[k - |base| - 1]);
    }
    LastSlash(dir, tail);
    BeforeQueryUnmarked(tail);
    StripsLastExtensionOnly(base, ext);
  }
}
