/** `adjust_path`: the recipe hands the driver forward-slash paths only. */
module Paths {
  import opened Strings

  /** `adjust_path`: every backslash becomes a forward slash. */
  function AdjustPath(path: string): (r: string)
    ensures |r| == |path|
    ensures '\\' !in r
    ensures forall i :: 0 <= i < |path| && path[i] != '\\' ==> r[i] == path[i]
    ensures forall i :: 0 <= i < |path| && path[i] == '\\' ==> r[i] == '/'
  {
    ReplaceChar(path, '\\', '/')
  }

  /** A path without backslashes is left as it is. */
  lemma AdjustPathFixesClean(path: string)
    requires '\\' !in path
    ensures AdjustPath(path) == path
  {
  }

  /** Adjusting twice is adjusting once. */
  lemma AdjustPathIdempotent(path: string)
    ensures AdjustPath(AdjustPath(path)) == AdjustPath(path)
  {
    AdjustPathFixesClean(AdjustPath(path));
  }
}
