/** `quoteNameIfNeeded` of packages/emitter/src/generators/identifiers.ts: a property name
    is written bare when it matches `/^[a-zA-Z0-9_]+$/` and wrapped in double quotes,
    without any escaping, otherwise. */
module Identifiers {
  import opened Strings

  /** `/^[a-zA-Z0-9_]+$/`: a non-empty name over ASCII letters, digits and `_`. */
  predicate IsBare(name: string) {
    name != [] && forall i :: 0 <= i < |name| ==> IsLetterOrDigit(name[i]) || name[i] == '_'
  }

  function QuoteNameIfNeeded(name: string): (r: string)
    ensures r == name <==> IsBare(name)
    ensures |r| == |name| || |r| == |name| + 2
    ensures r != name ==> |r| == |name| + 2 && r[0] == '"' && r[|r| - 1] == '"' && r[1..|r| - 1] == name
    ensures IsBare(r) <==> IsBare(name)
  {
    if IsBare(name) then name
    else
      var q := "\"" + name + "\"";
      assert !IsBare(q) by {
        assert q[0] == '"';
      }
      assert q[1..|q| - 1] == name;
      q
  }

  /** Removes one pair of surrounding double quotes, if present. */
  function Unquote(s: string): string {
    if |s| >= 2 && s[0] == '"' && s[|s| - 1] == '"' then s[1..|s| - 1] else s
  }

  /** Quoting loses nothing: the original name can always be read back. */
  lemma UnquoteQuote(name: string)
    ensures Unquote(QuoteNameIfNeeded(name)) == name
  {
    if IsBare(name) && |name| >= 2 {
      assert name[0] != '"';
    }
  }

  /** The quoted form is never bare, so quoting it again wraps it in a second pair of
      quotes: the function is not idempotent. */
  lemma RequoteQuoted(name: string)
    requires !IsBare(name)
    ensures QuoteNameIfNeeded(QuoteNameIfNeeded(name)) == "\"\"" + name + "\"\""
  {
  }

  /** A bare name is a fixed point. */
  lemma QuoteBareFixed(name: string)
    requires IsBare(name)
    ensures QuoteNameIfNeeded(QuoteNameIfNeeded(name)) == QuoteNameIfNeeded(name)
  {
  }

  lemma TestQuoted(a: string, b: string, c: string)
    requires a == "odata.type" && b == "" && c == "x-ms-id"
    ensures QuoteNameIfNeeded(a) == "\"odata.type\""
    ensures QuoteNameIfNeeded(b) == "\"\""
    ensures QuoteNameIfNeeded(c) == "\"x-ms-id\""
  {
    assert a[5] == '.';
    assert c[1] == '-';
  }

  lemma TestBare(a: string)
    requires a == "snake_Case9"
    ensures QuoteNameIfNeeded(a) == a
  {
  }
}
