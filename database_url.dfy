/**
 * The connection-string fix-up done when the models module is loaded: a
 * URL of the retired `postgres://` scheme is rewritten to the
 * `postgresql://` scheme that SQLAlchemy accepts. Reading the URL from the
 * environment is not part of this model; the URL is a parameter.
 */
module DatabaseUrl {

  const RetiredScheme: string := "postgres://"
  const CurrentScheme: string := "postgresql://"

  /** Python's `s.startswith(prefix)`. */
  predicate StartsWith(s: string, prefix: string)
  {
    |prefix| <= |s| && s[..|prefix|] == prefix
  }

  /** Python's `s.replace(pattern, replacement, 1)`: the leftmost occurrence only. */
  function ReplaceFirst(s: string, pattern: string, replacement: string): string
    decreases |s|
  {
    if |s| < |pattern| then s
    else if StartsWith(s, pattern) then replacement + s[|pattern|..]
    else [s[0]] + ReplaceFirst(s[1..], pattern, replacement)
  }

  /**
   * The module-level rewrite: a URL that starts with `postgres://` gets
   * `postgresql://` in place of that prefix and keeps the rest unchanged;
   * any other URL is returned as it is.
   */
  function RewriteDatabaseUrl(url: string): (r: string)
    ensures StartsWith(url, RetiredScheme) ==> r == CurrentScheme + url[|RetiredScheme|..]
    ensures !StartsWith(url, RetiredScheme) ==> r == url
  {
    if StartsWith(url, RetiredScheme) then ReplaceFirst(url, RetiredScheme, CurrentScheme) else url
  }

  /** A rewritten URL never carries the retired scheme. */
  lemma RewriteRemovesRetiredScheme(url: string)
    ensures !StartsWith(RewriteDatabaseUrl(url), RetiredScheme)
  {
    var r := RewriteDatabaseUrl(url);
    if StartsWith(url, RetiredScheme) {
      assert r[8] == 'q' != RetiredScheme[8];
    }
  }

  /** Rewriting twice is the same as rewriting once. */
  lemma RewriteIdempotent(url: string)
    ensures RewriteDatabaseUrl(RewriteDatabaseUrl(url)) == RewriteDatabaseUrl(url)
  {
    RewriteRemovesRetiredScheme(url);
  }
}
