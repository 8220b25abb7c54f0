/** `getPublicImageUrl(imgPath)`: image paths stored by the API name the
    object store's internal host "minio:9001"; the browser needs the public
    host instead. The environment value NEXT_PUBLIC_MINIO_HOST is a
    parameter.
 */
module ImageUrl {
  import opened Wrappers
  import opened Text

  const InternalHost: string := "minio:9001"
  const FallbackHost: string := "http://localhost:9001"
  const DefaultImage: string := "/default-user.png"

  /** `process.env.NEXT_PUBLIC_MINIO_HOST || 'http://localhost:9001'`. */
  function PublicHost(env: Option<string>): (r: string)
    ensures env.Some? && env.value != "" ==> r == env.value
    ensures env.None? || env.value == "" ==> r == FallbackHost
    ensures r != ""
  {
    if env.Some? && env.value != "" then env.value else FallbackHost
  }

  /** `s.replace(pat, rep)` with a string pattern: the first occurrence of
      `pat`, if any, becomes `rep`. */
  function ReplaceFirst(s: string, pat: string, rep: string): (r: string)
    ensures IndexOf(s, pat).None? ==> r == s
    ensures IndexOf(s, pat).Some? ==>
      var i := IndexOf(s, pat).value;
      |r| == |s| - |pat| + |rep| &&
      r[..i] == s[..i] && r[i..i + |rep|] == rep && r[i + |rep|..] == s[i + |pat|..]
  {
    match IndexOf(s, pat)
    case None => s
    case Some(i) => s[..i] + rep + s[i + |pat|..]
  }

  /** `getPublicImageUrl(imgPath)` with the environment `env`. */
  function GetPublicImageUrl(imgPath: Option<string>, env: Option<string>): (r: string)
    ensures imgPath.None? || imgPath.value == "" ==> r == DefaultImage
    ensures imgPath.Some? && imgPath.value != "" ==> r == ReplaceFirst(imgPath.value, InternalHost, PublicHost(env))
  {
    if imgPath.None? || imgPath.value == "" then DefaultImage
    else ReplaceFirst(imgPath.value, InternalHost, PublicHost(env))
  }

  /** A path that does not name the internal host is returned as it is. */
  lemma NoInternalHostUnchanged(path: string, env: Option<string>)
    requires path != ""
    requires forall j :: 0 <= j <= |path| ==> !OccursAt(path, InternalHost, j)
    ensures GetPublicImageUrl(Some(path), env) == path
  {
  }

  /** A path `a + "minio:9001" + b` where `a` does not name the internal
      host becomes `a + host + b`: only the first occurrence is replaced,
      and any later one in `b` stays. */
  lemma FirstOccurrenceReplaced(a: string, b: string, env: Option<string>)
    requires forall j :: 0 <= j < |a| ==> !OccursAt(a + InternalHost + b, InternalHost, j)
    ensures GetPublicImageUrl(Some(a + InternalHost + b), env) == a + PublicHost(env) + b
  {
    var s := a + InternalHost + b;
    assert OccursAt(s, InternalHost, |a|) by {
      assert s[|a|..|a| + |InternalHost|] == InternalHost;
    }
    var i := IndexOf(s, InternalHost).value;
    assert i == |a|;
    assert s[..i] == a;
    assert s[i + |InternalHost|..] == b;
  }
}
