/**
 * Output-path syntax `local[:remote]`: which file the command writes and
 * where it is uploaded, and whether temporary files are needed.
 */
module Paths {
  import opened Base
  import opened Strings

  /** ParseOutputPath: split at the first ':' and trim both halves; without a colon, local is empty. */
  function ParseOutputPath(path: string): (r: (string, string))
    ensures ':' !in path ==> r == ("", TrimSpace(path))
    ensures ':' in path ==> exists a, b :: path == a + ":" + b && ':' !in a && r == (TrimSpace(a), TrimSpace(b))
  {
    match SplitFirst(path, ':')
    case Some((a, b)) => (TrimSpace(a), TrimSpace(b))
    case None => ("", TrimSpace(path))
  }

  /**
   * Joining a colon-free local part to any remote part and parsing gives
   * both back, trimmed: colons in the remote part are kept.
   */
  lemma ParseOutputPathOfJoin(local: string, remote: string)
    requires ':' !in local
    ensures ParseOutputPath(local + ":" + remote) == (TrimSpace(local), TrimSpace(remote))
  {
    SplitFirstOfJoin(local, ':', remote);
  }

  datatype OutputPaths = OutputPaths(localOutput: string, remoteOutput: string, localStderr: string, remoteStderr: string) {
    /** NeedsTempFiles: only with an upload provider, and only when a local path was left out. */
    predicate NeedsTempFiles(hasUploadProvider: bool) {
      hasUploadProvider && (localOutput == "" || localStderr == "")
    }
  }

  /** ParseOutputPaths: the two flags are parsed independently. */
  function ParseOutputPaths(outputPath: string, stderrPath: string): (p: OutputPaths)
    ensures (p.localOutput, p.remoteOutput) == ParseOutputPath(outputPath)
    ensures (p.localStderr, p.remoteStderr) == ParseOutputPath(stderrPath)
  {
    var (lo, ro) := ParseOutputPath(outputPath);
    var (le, re) := ParseOutputPath(stderrPath);
    OutputPaths(lo, ro, le, re)
  }

  /**
   * Temporary files are needed exactly when a provider is configured and one
   * of the flags has no colon or an empty local part.
   */
  lemma NeedsTempFilesIff(outputPath: string, stderrPath: string, hasUploadProvider: bool)
    ensures !hasUploadProvider ==> !ParseOutputPaths(outputPath, stderrPath).NeedsTempFiles(hasUploadProvider)
    ensures ParseOutputPaths(outputPath, stderrPath).NeedsTempFiles(hasUploadProvider)
        <==> hasUploadProvider && (ParseOutputPath(outputPath).0 == "" || ParseOutputPath(stderrPath).0 == "")
    ensures hasUploadProvider && (':' !in outputPath || ':' !in stderrPath)
            ==> ParseOutputPaths(outputPath, stderrPath).NeedsTempFiles(hasUploadProvider)
  {
  }
}
