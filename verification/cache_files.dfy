/**
 * `getCacheFile` of the Recorder: the path of a file in the recorder's cache
 * directory, refused with 'invalid cache file path' when joining the name
 * leads out of the directory.
 *
 * The check as written compares text: the joined path must begin with the
 * cache path's characters. A sibling directory whose name extends the cache
 * directory's own name passes it. `CacheFile` is the check with a separator
 * after the prefix, which keeps every accepted path inside the directory;
 * the Recorder uses it, and it agrees with the written check on every name
 * the Recorder asks for.
 */
module CacheFiles {
  import opened JsValues
  import opened PosixPath

  const BodyFilePrefix := "res_body_"
  const WsMessageFilePrefix := "ws_message_"
  const InvalidCacheFilePath := "invalid cache file path"

  datatype PathResult = Path(path: string) | Invalid(message: string)

  /** `BODY_FILE_PRFIX + id`. */
  function BodyFileName(id: int): string
  {
    BodyFilePrefix + IntToString(id)
  }

  /** `WS_MESSAGE_FILE_PRFIX + id`. */
  function WsMessageFileName(id: int): string
  {
    WsMessageFilePrefix + IntToString(id)
  }

  /** `getCacheFile` as written: `path.join(cachePath, fileName)` is accepted
      when `indexOf(cachePath)` is 0, that is when it starts with `cachePath`. */
  function CacheFileAsWritten(cachePath: string, fileName: string): (r: PathResult)
    ensures r.Invalid? ==> r.message == InvalidCacheFilePath
    ensures r.Path? ==> r.path == PathJoin(cachePath, fileName) && cachePath <= r.path
  {
    var filePath := PathJoin(cachePath, fileName);
    if cachePath <= filePath then Path(filePath) else Invalid(InvalidCacheFilePath)
  }

  /** `getCacheFile` with the prefix check ending at a separator: every path
      it accepts lies inside the cache directory. */
  function CacheFile(cacheDir: seq<string>, fileName: string): (r: PathResult)
    requires |cacheDir| >= 1 && AllNames(cacheDir)
    ensures r.Invalid? ==> r.message == InvalidCacheFilePath
    ensures r.Path? ==> r.path == PathJoin(Render(cacheDir), fileName) && Within(cacheDir, r.path)
  {
    var cachePath := Render(cacheDir);
    var filePath := PathJoin(cachePath, fileName);
    if filePath == cachePath || cachePath + "/" <= filePath then
      PrefixWithSeparatorIsWithin(cacheDir, filePath);
      Path(filePath)
    else Invalid(InvalidCacheFilePath)
  }

  // ---------------------------------------------------------------------------
  // Lemmas

  /** The written check lets a file of a sibling directory through: with the
      cache directory `/tmp/cache_r1`, the name `../cache_r12/x` is accepted
      as `/tmp/cache_r12/x`, which is outside it. The corrected check refuses
      that name. */
  lemma AsWrittenEscapes(cacheDir: seq<string>, s: string, x: string)
    requires |cacheDir| >= 1 && AllNames(cacheDir)
    requires IsName(cacheDir[|cacheDir| - 1] + s) && s != "" && IsName(x)
    ensures var name := "../" + (cacheDir[|cacheDir| - 1] + s) + "/" + x;
      var escaped := Render(cacheDir) + s + "/" + x;
      && CacheFileAsWritten(Render(cacheDir), name) == Path(escaped)
      && !Within(cacheDir, escaped)
      && CacheFile(cacheDir, name).Invalid?
  {
    var n := |cacheDir|;
    var last := cacheDir[n - 1];
    var sibling := cacheDir[..n - 1] + [last + s, x];
    var name := "../" + (last + s) + "/" + x;
    var cachePath := Render(cacheDir);
    var escaped := cachePath + s + "/" + x;
    JoinIntoSibling(cacheDir, s, x);
    assert PathJoin(cachePath, name) == escaped;
    assert cachePath <= escaped;
    // The escaped path's segments are the sibling's, which differ from the
    // cache directory's at its last position.
    assert escaped[1..] == Join(sibling);
    SplitJoin(sibling);
    assert sibling[n - 1] == last + s && |last + s| > |last|;
    assert Split(escaped[1..])[..n] != cacheDir;
    // The character after the cache path is the first of `s`, not a '/'.
    assert escaped[|cachePath|] == s[0];
    assert s[0] in last + s;
  }

  /** For a plain name both checks accept `cachePath + '/' + name`. */
  lemma BothAcceptNames(cacheDir: seq<string>, name: string)
    requires |cacheDir| >= 1 && AllNames(cacheDir) && IsName(name)
    ensures CacheFileAsWritten(Render(cacheDir), name) == Path(Render(cacheDir) + "/" + name)
    ensures CacheFile(cacheDir, name) == Path(Render(cacheDir) + "/" + name)
  {
    JoinName(cacheDir, name);
  }

  /** Both checks refuse the parent directory. */
  lemma BothRefuseParent(cacheDir: seq<string>)
    requires |cacheDir| >= 1 && AllNames(cacheDir)
    ensures CacheFileAsWritten(Render(cacheDir), "..").Invalid?
    ensures CacheFile(cacheDir, "..").Invalid?
  {
    var n := |cacheDir|;
    JoinParent(cacheDir);
    var cachePath := Render(cacheDir);
    var parent := PathJoin(cachePath, "..");
    if n > 1 {
      JoinAppend(cacheDir[..n - 1], [cacheDir[n - 1]]);
      assert cacheDir[..n - 1] + [cacheDir[n - 1]] == cacheDir;
      assert |parent| < |cachePath|;
    } else {
      assert parent == "/";
      JoinNamesNonEmpty(cacheDir);
    }
  }

  /** The names the Recorder asks for are plain names. */
  lemma RecorderFileNames(id: int)
    ensures IsName(BodyFileName(id)) && IsName(WsMessageFileName(id))
  {
    var digits := IntToString(id);
    var m: nat := if id < 0 then -id else id;
    assert AllDigits(NatToString(m));
    assert '/' !in digits by {
      if id < 0 {
        assert digits == "-" + NatToString(m);
      }
    }
    assert BodyFileName(id)[0] == 'r' && |BodyFileName(id)| > 2;
    assert WsMessageFileName(id)[0] == 'w' && |WsMessageFileName(id)| > 2;
  }

  /** For the body and frame-log names of any record the written check and the
      corrected one give the same answer. */
  lemma ChecksAgreeOnRecorderFiles(cacheDir: seq<string>, id: int)
    requires |cacheDir| >= 1 && AllNames(cacheDir)
    ensures CacheFileAsWritten(Render(cacheDir), BodyFileName(id)) == CacheFile(cacheDir, BodyFileName(id))
    ensures CacheFileAsWritten(Render(cacheDir), WsMessageFileName(id)) == CacheFile(cacheDir, WsMessageFileName(id))
  {
    RecorderFileNames(id);
    BothAcceptNames(cacheDir, BodyFileName(id));
    BothAcceptNames(cacheDir, WsMessageFileName(id));
  }
}
