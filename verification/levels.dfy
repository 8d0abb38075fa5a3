/** Severities, the threshold comparison and level-name parsing (log.go). */
module Levels {

  /** Go declares the severities with `iota`, so a level is an integer and any
      integer may be passed where a level is expected. */
  type Level = int

  const LevelDebug: Level := 0
  const LevelInfo: Level := 1
  const LevelError: Level := 2

  /** A logger whose threshold is `threshold` forwards a message at `level`. */
  predicate Admits(threshold: Level, level: Level)
  {
    level >= threshold
  }

  /** The three named severities are strictly ordered Debug < Info < Error. */
  lemma SeverityOrder()
    ensures Admits(LevelDebug, LevelDebug) && Admits(LevelDebug, LevelInfo) && Admits(LevelDebug, LevelError)
    ensures !Admits(LevelInfo, LevelDebug) && Admits(LevelInfo, LevelInfo) && Admits(LevelInfo, LevelError)
    ensures !Admits(LevelError, LevelDebug) && !Admits(LevelError, LevelInfo) && Admits(LevelError, LevelError)
  {
  }

  function LowerChar(c: char): char
  {
    if 'A' <= c <= 'Z' then (c as int + 32) as char else c
  }

  /** Case folding of a level name. Only ASCII letters are folded: no other
      character lower-cases into a letter of "debug" or "error", so the
      classification below is the same as with full Unicode folding. */
  function Lower(s: string): (r: string)
    ensures |r| == |s|
    ensures forall i :: 0 <= i < |s| ==> r[i] == LowerChar(s[i])
    ensures forall i :: 0 <= i < |s| ==> !('A' <= r[i] <= 'Z')
  {
    if s == [] then [] else [LowerChar(s[0])] + Lower(s[1..])
  }

  /** Folding twice is folding once. */
  lemma LowerIdempotent(s: string)
    ensures Lower(Lower(s)) == Lower(s)
  {
  }

  /** The level named by `name`, as chosen by the `Level(name)` option:
      "debug" and "error" in any letter case name their levels, and every
      other string, including "info", "" and " debug", means Info. */
  function LevelFromName(name: string): (l: Level)
    ensures l == LevelDebug <==> Lower(name) == "debug"
    ensures l == LevelError <==> Lower(name) == "error"
    ensures l == LevelInfo <==> Lower(name) != "debug" && Lower(name) != "error"
  {
    var folded := Lower(name);
    if folded == "debug" then LevelDebug
    else if folded == "error" then LevelError
    else LevelInfo
  }

  /** The canonical name of each named level. */
  function LevelName(l: Level): string
  {
    if l == LevelDebug then "debug" else if l == LevelError then "error" else "info"
  }

  /** Parsing a level's name gives the level back. */
  lemma LevelNameRoundTrip(l: Level)
    requires l == LevelDebug || l == LevelInfo || l == LevelError
    ensures LevelFromName(LevelName(l)) == l
  {
  }

  /** Names that differ only in letter case name the same level. */
  lemma LevelNameCaseInsensitive(name: string)
    ensures LevelFromName(Lower(name)) == LevelFromName(name)
  {
  }

  /** Only five-letter names can select anything but Info. */
  lemma OnlyFiveLetterNamesLeaveInfo(name: string)
    requires |name| != 5
    ensures LevelFromName(name) == LevelInfo
  {
  }

  /** Any letter case of "debug" or "error" is accepted. */
  lemma UpperCaseNamesAccepted()
    ensures LevelFromName("DEBUG") == LevelDebug
    ensures LevelFromName("Error") == LevelError
  {
  }

  /** "info", the empty name and a name with a leading blank all mean Info:
      the name is not trimmed before it is compared. */
  lemma OtherNamesMeanInfo()
    ensures LevelFromName("info") == LevelInfo
    ensures LevelFromName("") == LevelInfo
    ensures LevelFromName(" debug") == LevelInfo
  {
  }
}
