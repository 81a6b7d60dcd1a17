/** `nameToIdentifier` of packages/emitter/src/util/naming.ts: turns a wire name into a
    camelCase identifier. A leading digit gets a `$` prefix, `-` and `_` split the name
    into segments that are re-joined in camelCase (with special cases for a name without
    separators), and every character outside A-Z a-z 0-9 `_` `$` is deleted. */
module Naming {
  import opened Wrappers
  import opened Strings

  datatype NamingError = RangeError(message: string)

  /** The characters `/[-_]/` splits on. */
  const Separators: set<char> := {'-', '_'}

  /** The alphabet the final `replace(/[^A-Za-z0-9_$]/g, "")` keeps. */
  predicate IsKept(c: char) { IsLetterOrDigit(c) || c == '_' || c == '$' }

  /** `/^[A-Z0-9$]+$/` */
  predicate AllCaps(s: string) {
    s != [] && forall i :: 0 <= i < |s| ==> IsUpper(s[i]) || IsDigit(s[i]) || s[i] == '$'
  }

  /** `/^[a-z0-9$]+$/` */
  predicate AllLower(s: string) {
    s != [] && forall i :: 0 <= i < |s| ==> IsLower(s[i]) || IsDigit(s[i]) || s[i] == '$'
  }

  predicate HasSeparator(s: string) {
    exists i :: 0 <= i < |s| && s[i] in Separators
  }

  function CapitalizeFirstLetter(s: string): (r: string)
    ensures |r| == |s|
    ensures s != [] ==> r[0] == ToUpper(s[0]) && r[1..] == s[1..]
  {
    if s == [] then s else [ToUpper(s[0])] + s[1..]
  }

  function LowercaseFirstLetter(s: string): (r: string)
    ensures |r| == |s|
    ensures s != [] ==> r[0] == ToLower(s[0]) && r[1..] == s[1..]
  {
    if s == [] then s else [ToLower(s[0])] + s[1..]
  }

  /** The characters of `s` that are kept, in order; the others are deleted, not replaced. */
  function RemoveInvalid(s: string): (r: string)
    ensures |r| <= |s|
    ensures forall i :: 0 <= i < |r| ==> IsKept(r[i])
    ensures (forall i :: 0 <= i < |s| ==> IsKept(s[i])) ==> r == s
  {
    if s == [] then []
    else (if IsKept(s[0]) then [s[0]] else []) + RemoveInvalid(s[1..])
  }

  /** The `$` prefix for a name that starts with an ASCII digit. */
  function Prefixed(name: string): string {
    if name != [] && IsDigit(name[0]) then "$" + name else name
  }

  /** The segments after the first, each lowercased and then capitalised, concatenated. */
  function CapitalizedSegments(parts: seq<string>): string {
    if parts == [] then []
    else CapitalizeFirstLetter(Lower(parts[0])) + CapitalizedSegments(parts[1..])
  }

  /** `replaceSeparator(input, /[-_]/)` */
  function ReplaceSeparator(input: string): string {
    var parts := Split(input, Separators);
    if |parts| == 1 && parts[0] != [] then
      if AllCaps(parts[0]) then Lower(parts[0])
      else if !AllLower(parts[0]) then LowercaseFirstLetter(parts[0])
      else parts[0]
    else
      Lower(parts[0]) + CapitalizedSegments(parts[1..])
  }

  /** `nameToIdentifier`: fails exactly for the empty name, yields only A-Z a-z 0-9 `$`
      (separators are consumed), and a name starting with a digit yields a `$`-prefixed
      identifier. */
  function NameToIdentifier(name: string): (r: Result<string, NamingError>)
    ensures r.Failure? <==> name == []
    ensures r.Success? ==> forall i :: 0 <= i < |r.value| ==> IsLetterOrDigit(r.value[i]) || r.value[i] == '$'
    ensures r.Success? && IsDigit(name[0]) ==> r.value != [] && r.value[0] == '$'
  {
    if name == [] then Failure(RangeError("Empty identifier not allowed."))
    else
      var replaced := ReplaceSeparator(Prefixed(name));
      ReplaceSeparatorAlphabet(Prefixed(name));
      ReplaceSeparatorKeepsDollar(Prefixed(name));
      RemoveInvalidAvoids(replaced, Separators);
      Success(RemoveInvalid(replaced))
  }

  // ---------------------------------------------------------------------------
  // Supporting facts about ReplaceSeparator

  lemma {:induction false} CapitalizedSegmentsAlphabet(parts: seq<string>)
    requires forall k, i :: 0 <= k < |parts| && 0 <= i < |parts[k]| ==> parts[k][i] !in Separators
    ensures forall i :: 0 <= i < |CapitalizedSegments(parts)| ==> CapitalizedSegments(parts)[i] !in Separators
  {
    if parts != [] {
      CapitalizedSegmentsAlphabet(parts[1..]);
      var head := CapitalizeFirstLetter(Lower(parts[0]));
      assert forall i :: 0 <= i < |head| ==> head[i] !in Separators;
    }
  }

  /** `replaceSeparator` consumes every separator. */
  lemma ReplaceSeparatorAlphabet(input: string)
    ensures forall i :: 0 <= i < |ReplaceSeparator(input)| ==> ReplaceSeparator(input)[i] !in Separators
  {
    var parts := Split(input, Separators);
    CapitalizedSegmentsAlphabet(parts[1..]);
  }

  lemma SplitFirstPiece(s: string)
    requires s != [] && s[0] !in Separators
    ensures Split(s, Separators)[0] != [] && Split(s, Separators)[0][0] == s[0]
  {
  }

  lemma ReplaceSeparatorKeepsDollar(input: string)
    ensures input != [] && input[0] == '$' ==>
      ReplaceSeparator(input) != [] && ReplaceSeparator(input)[0] == '$'
  {
    if input != [] && input[0] == '$' {
      SplitFirstPiece(input);
    }
  }

  /** Deleting characters introduces none: characters absent from `s` stay absent. */
  lemma {:induction false} RemoveInvalidAvoids(s: string, banned: set<char>)
    requires forall i :: 0 <= i < |s| ==> s[i] !in banned
    ensures forall i :: 0 <= i < |RemoveInvalid(s)| ==> RemoveInvalid(s)[i] !in banned
  {
    if s != [] {
      RemoveInvalidAvoids(s[1..], banned);
    }
  }

  lemma RemoveInvalidKeepsDollar(s: string)
    requires s != [] && s[0] == '$'
    ensures RemoveInvalid(s) != [] && RemoveInvalid(s)[0] == '$'
  {
  }

  lemma {:induction false} RemoveInvalidConcat(a: string, b: string)
    ensures RemoveInvalid(a + b) == RemoveInvalid(a) + RemoveInvalid(b)
  {
    if a != [] {
      assert (a + b)[0] == a[0];
      assert (a + b)[1..] == a[1..] + b;
      RemoveInvalidConcat(a[1..], b);
    } else {
      assert a + b == b;
    }
  }

  // ---------------------------------------------------------------------------
  // An independent reference: a one-pass camelCase conversion

  /** Reads the name left to right: a separator is dropped and makes the next character
      upper case; every other character is lowercased. */
  function CamelCase(s: string, capitalizeNext: bool): string {
    if s == [] then []
    else if s[0] in Separators then CamelCase(s[1..], true)
    else [if capitalizeNext then ToUpper(s[0]) else ToLower(s[0])] + CamelCase(s[1..], false)
  }

  /** The split/lowercase/capitalise/join pipeline computes the one-pass conversion. */
  lemma {:induction false} CamelCaseBySegments(s: string, capitalizeNext: bool)
    ensures var parts := Split(s, Separators);
      CamelCase(s, capitalizeNext)
        == (if capitalizeNext then CapitalizeFirstLetter(Lower(parts[0])) else Lower(parts[0]))
           + CapitalizedSegments(parts[1..])
  {
    if s == [] {
      assert Split(s, Separators) == [[]];
    } else if s[0] in Separators {
      CamelCaseBySegments(s[1..], true);
      CamelSeparatorStep(s, capitalizeNext);
    } else {
      CamelCaseBySegments(s[1..], false);
      var rest := Split(s[1..], Separators);
      SplitLetter(s);
      assert s == [s[0]] + s[1..];
      CamelLetterStep(s[0], s[1..], rest[0], rest[1..], capitalizeNext);
    }
  }

  /** A leading separator opens a new, capitalised segment. */
  lemma CamelSeparatorStep(s: string, capitalizeNext: bool)
    requires s != [] && s[0] in Separators
    requires var rest := Split(s[1..], Separators);
      CamelCase(s[1..], true) == CapitalizeFirstLetter(Lower(rest[0])) + CapitalizedSegments(rest[1..])
    ensures var parts := Split(s, Separators);
      CamelCase(s, capitalizeNext)
        == (if capitalizeNext then CapitalizeFirstLetter(Lower(parts[0])) else Lower(parts[0]))
           + CapitalizedSegments(parts[1..])
  {
    var rest := Split(s[1..], Separators);
    var parts := Split(s, Separators);
    assert parts == [[]] + rest;
    assert parts[1..] == rest;
    assert CapitalizedSegments(rest) == CapitalizeFirstLetter(Lower(rest[0])) + CapitalizedSegments(rest[1..]);
  }

  /** Any other leading character extends the current segment. */
  lemma CamelLetterStep(c: char, t: string, first: string, more: seq<string>, capitalizeNext: bool)
    requires c !in Separators
    requires CamelCase(t, false) == Lower(first) + CapitalizedSegments(more)
    ensures CamelCase([c] + t, capitalizeNext)
      == (if capitalizeNext then CapitalizeFirstLetter(Lower([c] + first)) else Lower([c] + first))
         + CapitalizedSegments(more)
  {
    var s := [c] + t;
    assert s[0] == c && s[1..] == t;
    var x := if capitalizeNext then ToUpper(c) else ToLower(c);
    assert CamelCase(s, capitalizeNext) == [x] + (Lower(first) + CapitalizedSegments(more));
    LowerCons(c, first);
    UpperOfLower(c);
    AppendAssoc([x], Lower(first), CapitalizedSegments(more));
  }

  /** A character that is not a separator starts the first part. */
  lemma SplitLetter(s: string)
    requires s != [] && s[0] !in Separators
    ensures var rest := Split(s[1..], Separators); var parts := Split(s, Separators);
      parts[0] == [s[0]] + rest[0] && parts[1..] == rest[1..]
  {
    var rest := Split(s[1..], Separators);
    assert Split(s, Separators) == [[s[0]] + rest[0]] + rest[1..];
  }

  lemma LowerCons(c: char, t: string)
    ensures Lower([c] + t) == [ToLower(c)] + Lower(t)
    ensures CapitalizeFirstLetter(Lower([c] + t)) == [ToUpper(ToLower(c))] + Lower(t)
  {
    assert Lower([c] + t) == [ToLower(c)] + Lower(t);
  }

  lemma {:induction false} CamelCaseWithoutSeparator(s: string)
    requires !HasSeparator(s)
    ensures CamelCase(s, false) == Lower(s)
  {
    if s != [] {
      assert !HasSeparator(s[1..]) by {
        forall i | 0 <= i < |s[1..]| ensures s[1..][i] !in Separators {
          assert s[1..][i] == s[i + 1];
        }
      }
      CamelCaseWithoutSeparator(s[1..]);
      assert Lower(s) == [ToLower(s[0])] + Lower(s[1..]);
    }
  }

  /** Except for a mixed-case name without separators, `nameToIdentifier` is the one-pass
      camelCase conversion of the (`$`-prefixed) name with invalid characters deleted; the
      mixed-case single token only has its first character lowercased. */
  lemma NameToIdentifierIsCamelCase(name: string)
    requires name != []
    ensures var p := Prefixed(name);
      if !HasSeparator(p) && !AllCaps(p) && !AllLower(p)
      then NameToIdentifier(name) == Success(RemoveInvalid(LowercaseFirstLetter(p)))
      else NameToIdentifier(name) == Success(RemoveInvalid(CamelCase(p, false)))
  {
    var p := Prefixed(name);
    var parts := Split(p, Separators);
    CamelCaseBySegments(p, false);
    if !HasSeparator(p) {
      CamelCaseWithoutSeparator(p);
      assert |parts| == 1;
      SplitNoSeparator(p, Separators);
      if AllLower(p) && !AllCaps(p) {
        assert Lower(p) == p;
      }
    } else {
      assert |parts| != 1;
    }
  }

  /** A name made of a-z, 0-9 and `$` only comes back unchanged (after the `$` prefix). */
  lemma LowerTokenUnchanged(name: string)
    requires AllLower(name)
    ensures NameToIdentifier(name) == Success(Prefixed(name))
  {
    var p := Prefixed(name);
    assert AllLower(p);
    assert !HasSeparator(p);
    SplitNoSeparator(p, Separators);
    assert Lower(p) == p;
  }

  /** A name made of A-Z, 0-9 and `$` only is lowercased entirely. */
  lemma UpperTokenLowercased(name: string)
    requires AllCaps(name)
    ensures NameToIdentifier(name) == Success(Lower(Prefixed(name)))
  {
    var p := Prefixed(name);
    assert AllCaps(p);
    assert !HasSeparator(p);
    SplitNoSeparator(p, Separators);
  }

  /** With separators, the first segment is lowercased and each later segment is
      lowercased with its first character upper-cased. */
  lemma SegmentsCamelCased(name: string)
    requires name != [] && HasSeparator(name)
    ensures var parts := Split(Prefixed(name), Separators);
      NameToIdentifier(name)
        == Success(RemoveInvalid(Lower(parts[0]) + CapitalizedSegments(parts[1..])))
  {
    var p := Prefixed(name);
    assert HasSeparator(p) by {
      var i :| 0 <= i < |name| && name[i] in Separators;
      if p != name {
        assert p[i + 1] == name[i];
      }
    }
  }

  // ---------------------------------------------------------------------------
  // The unit tests of packages/emitter/test/naming.spec.ts

  lemma LowerNoUpper(s: string)
    requires forall i :: 0 <= i < |s| ==> !IsUpper(s[i])
    ensures Lower(s) == s
  {
  }

  /** One separator-free, upper-case-free segment followed by the rest of the name. */
  lemma CamelCaseSegment(w: string, rest: string, capitalizeNext: bool)
    requires w != [] && !HasSeparator(w)
    requires forall i :: 1 <= i < |w| ==> !IsUpper(w[i])
    ensures CamelCase(w + rest, capitalizeNext)
      == [if capitalizeNext then ToUpper(w[0]) else ToLower(w[0])] + w[1..] + CamelCase(rest, false)
  {
    var t := w[1..];
    assert (w + rest)[0] == w[0];
    assert (w + rest)[1..] == t + rest;
    assert !HasSeparator(t) && forall i :: 0 <= i < |t| ==> !IsUpper(t[i]) by {
      assert forall i :: 0 <= i < |t| ==> t[i] == w[i + 1];
    }
    CamelCaseLowerPrefix(t, rest);
    var x := if capitalizeNext then ToUpper(w[0]) else ToLower(w[0]);
    assert CamelCase(w + rest, capitalizeNext) == [x] + (t + CamelCase(rest, false));
    AppendAssoc([x], t, CamelCase(rest, false));
  }

  lemma {:induction false} CamelCaseLowerPrefix(w: string, rest: string)
    requires !HasSeparator(w)
    requires forall i :: 0 <= i < |w| ==> !IsUpper(w[i])
    ensures CamelCase(w + rest, false) == w + CamelCase(rest, false)
  {
    if w == [] {
      assert w + rest == rest;
    } else {
      assert (w + rest)[0] == w[0];
      assert (w + rest)[1..] == w[1..] + rest;
      assert !HasSeparator(w[1..]) by {
        forall i | 0 <= i < |w[1..]| ensures w[1..][i] !in Separators {
          assert w[1..][i] == w[i + 1];
        }
      }
      CamelCaseLowerPrefix(w[1..], rest);
      assert [w[0]] + w[1..] == w;
    }
  }

  lemma CamelCaseSeparator(c: char, rest: string, capitalizeNext: bool)
    requires c in Separators
    ensures CamelCase([c] + rest, capitalizeNext) == CamelCase(rest, true)
  {
    assert ([c] + rest)[1..] == rest;
  }

  /** A name with separators and no leading digit. */
  lemma SeparatedName(name: string)
    requires name != [] && HasSeparator(name) && !IsDigit(name[0])
    ensures NameToIdentifier(name) == Success(RemoveInvalid(CamelCase(name, false)))
  {
    NameToIdentifierIsCamelCase(name);
  }

  /** A mixed-case name without separators and without a leading digit. */
  lemma MixedCaseToken(name: string)
    requires name != [] && !HasSeparator(name) && !AllCaps(name) && !AllLower(name) && !IsDigit(name[0])
    ensures NameToIdentifier(name) == Success(RemoveInvalid(LowercaseFirstLetter(name)))
  {
    NameToIdentifierIsCamelCase(name);
  }

  lemma AllKept(s: string)
    requires forall i :: 0 <= i < |s| ==> IsLetterOrDigit(s[i])
    ensures RemoveInvalid(s) == s
  {
  }

  lemma TestLowerUnchanged(name: string)
    requires name == "foo"
    ensures NameToIdentifier(name) == Success("foo")
  {
    LowerTokenUnchanged(name);
  }

  lemma CamelCaseThreeSegments(name: string, sep: char)
    requires sep in Separators && name == "foo" + [sep] + "bar" + [sep] + "baz"
    ensures CamelCase(name, false) == "fooBarBaz"
  {
    var t1 := [sep] + "baz";
    var t2 := "bar" + t1;
    var t3 := [sep] + t2;
    assert name == "foo" + t3;
    CamelCaseSegment("baz", [], true);
    assert "baz" + [] == "baz";
    assert CamelCase("baz", true) == "Baz";
    CamelCaseSeparator(sep, "baz", false);
    assert CamelCase(t1, false) == "Baz";
    CamelCaseSegment("bar", t1, true);
    assert CamelCase(t2, true) == "Bar" + "Baz";
    CamelCaseSeparator(sep, t2, false);
    assert CamelCase(t3, false) == "BarBaz";
    CamelCaseSegment("foo", t3, false);
    assert CamelCase(name, false) == "foo" + "BarBaz";
  }

  /** Every character of `s` survives the final deletion pass. */
  lemma SeparatedNameYields(name: string, expected: string)
    requires name != [] && HasSeparator(name) && !IsDigit(name[0])
    requires CamelCase(name, false) == expected
    requires forall i :: 0 <= i < |expected| ==> IsLetterOrDigit(expected[i])
    ensures NameToIdentifier(name) == Success(expected)
  {
    SeparatedName(name);
    AllKept(expected);
  }

  /** "foo" SEP "bar" SEP "baz" becomes "fooBarBaz" for either separator. */
  lemma ThreeSegments(name: string, sep: char)
    requires sep in Separators && name == "foo" + [sep] + "bar" + [sep] + "baz"
    ensures name != [] && HasSeparator(name) && !IsDigit(name[0])
    ensures CamelCase(name, false) == "fooBarBaz"
  {
    assert name[3] in Separators;
    CamelCaseThreeSegments(name, sep);
  }

  /** Kebab case and snake case give the same camelCase name. */
  lemma TestSeparatedNames(kebab: string, snake: string)
    requires kebab == "foo-bar-baz" && snake == "foo_bar_baz"
    ensures NameToIdentifier(kebab) == Success("fooBarBaz")
    ensures NameToIdentifier(snake) == Success("fooBarBaz")
  {
    assert kebab == "foo" + ['-'] + "bar" + ['-'] + "baz";
    ThreeSegments(kebab, '-');
    SeparatedNameYields(kebab, "fooBarBaz");
    assert snake == "foo" + ['_'] + "bar" + ['_'] + "baz";
    ThreeSegments(snake, '_');
    SeparatedNameYields(snake, "fooBarBaz");
  }

  /** A computable form of "has no separator", for concrete names. */
  predicate NoSeparatorIn(s: string) {
    s == [] || (s[0] !in Separators && NoSeparatorIn(s[1..]))
  }

  lemma {:induction false} NoSeparatorInMeans(s: string)
    requires NoSeparatorIn(s)
    ensures !HasSeparator(s)
  {
    if s != [] {
      NoSeparatorInMeans(s[1..]);
      assert forall i :: 1 <= i < |s| ==> s[i] == s[1..][i - 1];
    }
  }

  lemma MixedCaseTokenYields(name: string, expected: string)
    requires name != [] && !HasSeparator(name) && !AllCaps(name) && !AllLower(name) && !IsDigit(name[0])
    requires RemoveInvalid(LowercaseFirstLetter(name)) == expected
    ensures NameToIdentifier(name) == Success(expected)
  {
    MixedCaseToken(name);
  }

  lemma PascalCaseFacts(name: string)
    requires name == "SomeName"
    ensures name != [] && !HasSeparator(name) && !AllCaps(name) && !AllLower(name) && !IsDigit(name[0])
    ensures RemoveInvalid(LowercaseFirstLetter(name)) == "someName"
  {
    assert !AllCaps(name) && !AllLower(name) by {
      assert IsLower(name[1]) && IsUpper(name[0]);
    }
    assert !HasSeparator(name) by {
      assert forall i :: 0 <= i < |name| ==> IsLetterOrDigit(name[i]);
    }
    assert RemoveInvalid(LowercaseFirstLetter(name)) == "someName" by {
      assert LowercaseFirstLetter(name) == "someName";
      AllKept("someName");
    }
  }

  lemma TestPascalCase(name: string)
    requires name == "SomeName"
    ensures NameToIdentifier(name) == Success("someName")
  {
    PascalCaseFacts(name);
    MixedCaseTokenYields(name, "someName");
  }

  lemma AllUpperFacts(name: string)
    requires name == "ALL_UPPER"
    ensures name != [] && HasSeparator(name) && !IsDigit(name[0])
    ensures CamelCase(name, false) == "allUpper"
  {
    assert name[3] in Separators;
    var all, upper := "ALL", "UPPER";
    assert name == all + (['_'] + upper);
    UpperSegment(upper);
    CamelCaseSeparator('_', upper, false);
    AllSegment(all);
    CamelCaseAppend(all, ['_'] + upper);
    assert "all" + "Upper" == "allUpper";
  }

  lemma AllSegment(all: string)
    requires all == "ALL"
    ensures !HasSeparator(all) && Lower(all) == "all"
  {
    assert Lower(all) == "all";
  }

  lemma UpperSegment(upper: string)
    requires upper == "UPPER"
    ensures CamelCase(upper, true) == "Upper"
  {
    CamelCaseWithoutSeparator(upper[1..]);
    assert upper[1..] == "PPER";
    assert Lower("PPER") == "pper";
    assert CamelCase(upper, true) == ['U'] + "pper";
  }

  lemma TestAllUpper(name: string)
    requires name == "ALL_UPPER"
    ensures NameToIdentifier(name) == Success("allUpper")
  {
    AllUpperFacts(name);
    SeparatedNameYields(name, "allUpper");
  }

  /** A separator-free prefix is lowercased and the rest starts fresh. */
  lemma {:induction false} CamelCaseAppend(w: string, rest: string)
    requires !HasSeparator(w)
    ensures CamelCase(w + rest, false) == Lower(w) + CamelCase(rest, false)
  {
    if w == [] {
      assert w + rest == rest;
    } else {
      assert (w + rest)[0] == w[0];
      assert (w + rest)[1..] == w[1..] + rest;
      assert !HasSeparator(w[1..]) by {
        forall i | 0 <= i < |w[1..]| ensures w[1..][i] !in Separators {
          assert w[1..][i] == w[i + 1];
        }
      }
      CamelCaseAppend(w[1..], rest);
      assert Lower(w) == [ToLower(w[0])] + Lower(w[1..]);
    }
  }

  lemma UpperTokenYields(name: string, expected: string)
    requires AllCaps(name) && !IsDigit(name[0]) && Lower(name) == expected
    ensures NameToIdentifier(name) == Success(expected)
  {
    UpperTokenLowercased(name);
  }

  lemma UpperTokenFacts(name: string)
    requires name == "HELLO"
    ensures AllCaps(name) && !IsDigit(name[0]) && Lower(name) == "hello"
  {
  }

  lemma TestUpperWithoutSeparator(name: string)
    requires name == "HELLO"
    ensures NameToIdentifier(name) == Success("hello")
  {
    UpperTokenFacts(name);
    UpperTokenYields(name, "hello");
  }

  lemma CaretNameHasNoSeparator(name: string)
    requires name == "foo^bar"
    ensures !HasSeparator(name)
  {
    assert NoSeparatorIn("bar");
    assert NoSeparatorIn("^bar");
    assert NoSeparatorIn("foo^bar");
    NoSeparatorInMeans(name);
  }

  lemma RemoveInvalidCons(c: char, rest: string)
    ensures RemoveInvalid([c] + rest) == (if IsKept(c) then [c] else []) + RemoveInvalid(rest)
  {
    assert ([c] + rest)[1..] == rest;
  }

  lemma CaretNameCharactersRemoved(name: string)
    requires name == "foo^bar"
    ensures RemoveInvalid(name) == "foobar"
  {
    var foo, bar := "foo", "bar";
    assert name == foo + (['^'] + bar);
    AllKept(foo);
    AllKept(bar);
    RemoveInvalidConcat(foo, ['^'] + bar);
    RemoveInvalidCons('^', bar);
    assert foo + bar == "foobar";
  }

  lemma InvalidCharacterFacts(name: string)
    requires name == "foo^bar"
    ensures name != [] && !HasSeparator(name) && !AllCaps(name) && !AllLower(name) && !IsDigit(name[0])
    ensures RemoveInvalid(LowercaseFirstLetter(name)) == "foobar"
  {
    assert !AllCaps(name) && !AllLower(name) by {
      assert name[3] == '^';
    }
    CaretNameHasNoSeparator(name);
    assert LowercaseFirstLetter(name) == name by {
      LowerNoUpper(name);
    }
    CaretNameCharactersRemoved(name);
  }

  lemma TestInvalidCharacterRemoved(name: string)
    requires name == "foo^bar"
    ensures NameToIdentifier(name) == Success("foobar")
  {
    InvalidCharacterFacts(name);
    MixedCaseTokenYields(name, "foobar");
  }

  lemma TestLeadingDigit(name: string)
    requires name == "1fear"
    ensures NameToIdentifier(name) == Success("$1fear")
  {
    LowerTokenUnchanged(name);
    assert Prefixed(name) == "$" + name;
    assert "$" + name == "$1fear";
  }

  lemma CaretFacts(a: string)
    requires a == "^A"
    ensures a != [] && !HasSeparator(a) && !AllCaps(a) && !AllLower(a) && !IsDigit(a[0])
    ensures RemoveInvalid(LowercaseFirstLetter(a)) == "A"
  {
    assert a[0] == '^';
    assert LowercaseFirstLetter(a) == a;
    assert RemoveInvalid(a) == RemoveInvalid("A") by { assert a[1..] == "A"; }
  }

  lemma DashDigitFacts(b: string)
    requires b == "-1"
    ensures b != [] && HasSeparator(b) && !IsDigit(b[0])
    ensures CamelCase(b, false) == "1"
  {
    assert b[0] in Separators;
    CamelCaseSeparator('-', "1", false);
    assert b == ['-'] + "1";
    assert CamelCase("1", true) == "1";
  }

  lemma SingleUpperFacts(x: string)
    requires x == "A"
    ensures AllCaps(x) && Lower(Prefixed(x)) == "a"
  {
  }

  /** The conversion is not idempotent ("^A" gives "A", which gives "a"), and a digit can
      still lead the result ("-1" gives "1"). */
  lemma NotIdempotent(a: string, b: string)
    requires a == "^A" && b == "-1"
    ensures NameToIdentifier(a) == Success("A")
    ensures NameToIdentifier(NameToIdentifier(a).value) == Success("a")
    ensures NameToIdentifier(b) == Success("1")
  {
    CaretFacts(a);
    MixedCaseTokenYields(a, "A");
    var a1 := NameToIdentifier(a).value;
    SingleUpperFacts(a1);
    UpperTokenLowercased(a1);
    DashDigitFacts(b);
    SeparatedNameYields(b, "1");
  }
}
