/** The path normaliser shared by every module: one leading `/` and one
    trailing `/` are removed, and an empty result is displayed as `/`. */
module Paths {

  /** The SDK-facing path and the human-readable display path. */
  datatype Normalised = Normalised(path: string, display: string)

  predicate StartsWithSlash(s: string) { |s| > 0 && s[0] == '/' }

  predicate EndsWithSlash(s: string) { |s| > 0 && s[|s| - 1] == '/' }

  /** The string ends with a `/` followed by one newline. */
  predicate EndsWithSlashNewline(s: string) { |s| >= 2 && s[|s| - 2] == '/' && s[|s| - 1] == '\n' }

  /** The first substitution, `^\/` replaced by nothing: without the multi-line
      flag `^` matches at index 0 only, so at most one slash goes. */
  function DropLeadingSlash(s: string): (r: string)
    ensures StartsWithSlash(s) ==> s == "/" + r
    ensures !StartsWithSlash(s) ==> r == s
  {
    if StartsWithSlash(s) then s[1..] else s
  }

  /** The second substitution, `\/$` replaced by nothing. In Python `$` matches
      at the very end and also just before a final newline; the two positions
      cannot both be preceded by a slash, so at most one slash goes, and in the
      second case the newline stays. */
  function DropTrailingSlash(s: string): (r: string)
    ensures EndsWithSlash(s) ==> s == r + "/"
    ensures EndsWithSlashNewline(s) ==> |r| == |s| - 1 && s == r[..|r| - 1] + "/\n" && r[|r| - 1] == '\n'
    ensures !EndsWithSlash(s) && !EndsWithSlashNewline(s) ==> r == s
  {
    if EndsWithSlash(s) then s[..|s| - 1]
    else if EndsWithSlashNewline(s) then s[..|s| - 2] + "\n"
    else s
  }

  /** `right_path`: total on every string; returns the normalised path and the
      display path. */
  function RightPath(s: string): (r: Normalised)
    ensures |s| - 2 <= |r.path| <= |s|
    ensures r.display != ""
    ensures r.path != "" ==> r.display == r.path
    ensures r.display == "/" <==> r.path == "" || r.path == "/"
  {
    var p := DropTrailingSlash(DropLeadingSlash(s));
    Normalised(p, if p == "" then "/" else p)
  }

  /** Apart from the newline quirk, the normalised path is the infix of the
      input that starts after the (optional) leading slash. */
  lemma Infix(s: string)
    requires !EndsWithSlashNewline(s)
    ensures var i := if StartsWithSlash(s) then 1 else 0;
      var p := RightPath(s).path;
      i + |p| <= |s| && p == s[i..i + |p|]
  {
  }

  /** The newline quirk: a slash just before a final newline is removed and the
      newline is kept. */
  lemma NewlineQuirk(t: string)
    ensures RightPath(t + "/\n").path == DropLeadingSlash(t) + "\n"
  {
    var s := t + "/\n";
    if t == "" {
      assert s == "/\n";
      assert DropLeadingSlash(s) == "\n";
    } else if StartsWithSlash(t) {
      assert DropLeadingSlash(s) == t[1..] + "/\n";
      assert EndsWithSlashNewline(t[1..] + "/\n");
      assert (t[1..] + "/\n")[..|t| - 1] == t[1..];
    } else {
      assert DropLeadingSlash(s) == s;
      assert EndsWithSlashNewline(s);
      assert s[..|s| - 2] == t;
    }
  }

  /** The normaliser leaves a string unchanged exactly when no slash is at
      either end (counting the newline quirk). */
  lemma FixedPointIff(s: string)
    ensures RightPath(s).path == s <==>
      !StartsWithSlash(s) && !EndsWithSlash(s) && !EndsWithSlashNewline(s)
  {
  }

  /** The normalised path is empty (the share root) exactly for "", "/" and "//". */
  lemma EmptyIff(s: string)
    ensures RightPath(s).path == "" <==> s == "" || s == "/" || s == "//"
  {
  }

  /** "/c/", "/c", "c/" and "c" normalise alike whenever c itself has no
      slash at either end. */
  lemma SlashVariants(c: string)
    requires !StartsWithSlash(c) && !EndsWithSlash(c) && !EndsWithSlashNewline(c)
    ensures RightPath("/" + c + "/").path == c
    ensures RightPath("/" + c).path == c
    ensures RightPath(c + "/").path == c
    ensures RightPath(c).path == c
  {
  }

  /** Only one slash goes at each end: "", "/" and "//" give ("", "/"),
      while "///" gives ("/", "/"). */
  lemma OneSlashPerEnd()
    ensures RightPath("") == Normalised("", "/")
    ensures RightPath("/") == Normalised("", "/")
    ensures RightPath("//") == Normalised("", "/")
    ensures RightPath("///") == Normalised("/", "/")
  {
  }

  /** Normalising twice can differ from normalising once. */
  lemma NotIdempotent()
    ensures RightPath("//a//").path == "/a/"
    ensures RightPath(RightPath("//a//").path).path == "a"
  {
  }
}
