/**
 * Log levels (server/logger.go) and the parsing of the configured level name
 * (server/main.go, `parseLogLevel`): a switch on the upper-cased name.
 */
module LogLevels {

  /** The four levels, declared with `iota` in increasing severity. */
  datatype LogLevel = DEBUG | INFO | WARN | ERROR

  /**
   * Go's `unicode.ToUpper` as far as it can produce an ASCII letter: `a`..`z`,
   * the dotless `ı` (U+0131, upper case `I`) and the long `ſ` (U+017F, upper
   * case `S`). Every other rune is kept; its real upper case is never an ASCII
   * letter, so this does not change what `parseLogLevel` returns.
   */
  function UpperRune(c: char): char {
    if 'a' <= c <= 'z' then (c as int - 32) as char
    else if c == '\U{0131}' then 'I'
    else if c == '\U{017F}' then 'S'
    else c
  }

  /** `strings.ToUpper`, rune by rune. */
  function ToUpper(s: string): (r: string)
    ensures |r| == |s| && forall i :: 0 <= i < |s| ==> r[i] == UpperRune(s[i])
  {
    seq(|s|, i requires 0 <= i < |s| => UpperRune(s[i]))
  }

  function ParseLogLevel(levelStr: string): (r: LogLevel)
    ensures r == DEBUG <==> ToUpper(levelStr) == "DEBUG"
    ensures r == WARN <==> ToUpper(levelStr) == "WARN" || ToUpper(levelStr) == "WARNING"
    ensures r == ERROR <==> ToUpper(levelStr) == "ERROR"
    ensures r == INFO <==> ToUpper(levelStr) !in {"DEBUG", "WARN", "WARNING", "ERROR"}
  {
    match ToUpper(levelStr)
    case "DEBUG" => DEBUG
    case "INFO" => INFO
    case "WARN" => WARN
    case "WARNING" => WARN
    case "ERROR" => ERROR
    case _ => INFO
  }

  /** `s` spells the upper-case ASCII word `w`, each letter in either case. */
  predicate IsCasingOf(s: string, w: string) {
    && |s| == |w|
    && forall i :: 0 <= i < |s| ==> 'A' <= w[i] <= 'Z' && (s[i] == w[i] || s[i] as int == w[i] as int + 32)
  }

  lemma {:induction false} CasingUppercases(s: string, w: string)
    requires IsCasingOf(s, w)
    ensures ToUpper(s) == w
  {
    forall i | 0 <= i < |s|
      ensures ToUpper(s)[i] == w[i]
    {
      if s[i] != w[i] {
        assert (s[i] as int - 32) as char == w[i];
      }
    }
  }

  /** Any casing of `debug`, `info`, `warn`, `warning` or `error` selects its level. */
  lemma {:induction false} AnyCasingSelectsLevel(s: string)
    ensures IsCasingOf(s, "DEBUG") ==> ParseLogLevel(s) == DEBUG
    ensures IsCasingOf(s, "INFO") ==> ParseLogLevel(s) == INFO
    ensures IsCasingOf(s, "WARN") || IsCasingOf(s, "WARNING") ==> ParseLogLevel(s) == WARN
    ensures IsCasingOf(s, "ERROR") ==> ParseLogLevel(s) == ERROR
  {
    if IsCasingOf(s, "DEBUG") { CasingUppercases(s, "DEBUG"); }
    if IsCasingOf(s, "INFO") { CasingUppercases(s, "INFO"); }
    if IsCasingOf(s, "WARN") { CasingUppercases(s, "WARN"); }
    if IsCasingOf(s, "WARNING") { CasingUppercases(s, "WARNING"); }
    if IsCasingOf(s, "ERROR") { CasingUppercases(s, "ERROR"); }
  }

  /** Names that upper-case alike parse alike. */
  lemma CaseInsensitive(s: string, t: string)
    requires ToUpper(s) == ToUpper(t)
    ensures ParseLogLevel(s) == ParseLogLevel(t)
  {
  }

  /** The empty name, and an unknown one, fall back to INFO. */
  lemma UnknownIsInfo()
    ensures ParseLogLevel("") == INFO
    ensures ParseLogLevel("verbose") == INFO
  {
    assert ToUpper("verbose") == "VERBOSE";
  }

  /**
   * Upper-casing is Unicode's, not ASCII's: the dotless `ı` upper-cases to
   * `I`, so `ınfo` parses as INFO and `warnıng` as WARN.
   */
  lemma UnicodeUpperCase()
    ensures ParseLogLevel("\U{0131}nfo") == INFO
    ensures ParseLogLevel("warn\U{0131}ng") == WARN
    ensures ParseLogLevel("debug") == DEBUG
  {
    assert ToUpper("\U{0131}nfo") == "INFO";
    assert ToUpper("warn\U{0131}ng") == "WARNING";
    assert ToUpper("debug") == "DEBUG";
  }
}
