/**
 * Conversion of snake_case field names into the camelCase keys of the
 * location-finder wire format (`_snake_to_camel_case` in src/definitions.py).
 *
 * Strings are ASCII: upper- and lower-casing change only the letters a-z / A-Z.
 */
module Casing {

  /** ASCII upper-casing of one character; every other character is kept. */
  function Upper(c: char): char
  {
    if 'a' <= c <= 'z' then (c as int - 32) as char else c
  }

  /** ASCII lower-casing of one character; every other character is kept. */
  function Lower(c: char): char
  {
    if 'A' <= c <= 'Z' then (c as int + 32) as char else c
  }

  function LowerAll(s: string): string
  {
    seq(|s|, i requires 0 <= i < |s| => Lower(s[i]))
  }

  /** Python's `str.capitalize` on ASCII: first character upper-cased, the rest lower-cased. */
  function Capitalize(w: string): string
  {
    if w == [] then [] else [Upper(w[0])] + LowerAll(w[1..])
  }

  /** The capitalized components, concatenated without separators. */
  function CapitalizeAll(ws: seq<string>): string
  {
    if ws == [] then [] else Capitalize(ws[0]) + CapitalizeAll(ws[1..])
  }

  /**
   * Python's `s.split("_")`: the maximal underscore-free pieces between
   * underscores, empty pieces included ("" gives [""], "a__b" gives ["a", "", "b"]).
   */
  function Split(s: string): (parts: seq<string>)
    ensures |parts| >= 1
  {
    if s == [] then [[]]
    else
      var rest := Split(s[1..]);
      if s[0] == '_' then [[]] + rest
      else [[s[0]] + rest[0]] + rest[1..]
  }

  /** `"_".join(parts)`: the inverse of Split. */
  function Join(parts: seq<string>): string
    requires |parts| >= 1
  {
    if |parts| == 1 then parts[0] else parts[0] + "_" + Join(parts[1..])
  }

  /**
   * The camelCase form of a snake_case name: the first `_`-component verbatim,
   * every later component capitalized, no separators.
   */
  function Camel(s: string): string
  {
    JoinCamel(Split(s))
  }

  /** The camelCase rendering of a list of components: the first verbatim, the rest capitalized. */
  function JoinCamel(parts: seq<string>): string
  {
    if parts == [] then [] else parts[0] + CapitalizeAll(parts[1..])
  }

  lemma JoinCamelAppend(parts: seq<string>, w: string)
    ensures JoinCamel(parts + [w]) == JoinCamel(parts) + (if parts == [] then w else Capitalize(w))
  {
    if parts != [] {
      assert (parts + [w])[1..] == parts[1..] + [w];
      CapitalizeAllAppend(parts[1..], [w]);
      assert CapitalizeAll([w]) == Capitalize(w) + CapitalizeAll([]);
    }
  }

  /**
   * `_snake_to_camel_case`: splits on `_` and writes the components into a
   * buffer one by one, the first verbatim and every later one capitalized.
   */
  method SnakeToCamelCase(s: string) returns (r: string)
    ensures r == Camel(s)
    ensures '_' !in r
  {
    var components := Split(s);
    r := [];
    for idx := 0 to |components|
      invariant r == JoinCamel(components[..idx])
    {
      JoinCamelAppend(components[..idx], components[idx]);
      assert components[..idx + 1] == components[..idx] + [components[idx]];
      if idx == 0 {
        r := r + components[idx];
        continue;
      }
      r := r + Capitalize(components[idx]);
    }
    assert components[..|components|] == components;
    CamelHasNoUnderscore(s);
  }

  // ---------------------------------------------------------------------------
  // A reference definition that scans characters instead of components.
  // ---------------------------------------------------------------------------

  /** Where a character stands relative to the `_`-components of a name. */
  datatype Position = FirstComponent | ComponentStart | ComponentRest

  /**
   * Character-by-character camel-casing: underscores are dropped, characters
   * of the first component are kept, the first character after an underscore
   * is upper-cased and the others of a later component are lower-cased.
   */
  function Scan(s: string, at: Position): string
  {
    if s == [] then []
    else if s[0] == '_' then Scan(s[1..], ComponentStart)
    else match at
      case FirstComponent => [s[0]] + Scan(s[1..], FirstComponent)
      case ComponentStart => [Upper(s[0])] + Scan(s[1..], ComponentRest)
      case ComponentRest => [Lower(s[0])] + Scan(s[1..], ComponentRest)
  }

  /** How the leading component of a name is rendered when the scan starts at `at`. */
  function Lead(at: Position, w: string): string
  {
    match at
    case FirstComponent => w
    case ComponentStart => Capitalize(w)
    case ComponentRest => LowerAll(w)
  }

  lemma {:induction false} ScanSplit(s: string, at: Position)
    decreases s, 2
    ensures Scan(s, at) == Lead(at, Split(s)[0]) + CapitalizeAll(Split(s)[1..])
  {
    if s == [] {
      assert Split(s) == [[]];
    } else if s[0] == '_' {
      var rest := Split(s[1..]);
      assert Split(s) == [[]] + rest;
      ScanSplit(s[1..], ComponentStart);
      assert CapitalizeAll(rest) == Capitalize(rest[0]) + CapitalizeAll(rest[1..]);
    } else {
      var rest := Split(s[1..]);
      var w := [s[0]] + rest[0];
      assert Split(s) == [w] + rest[1..];
      ScanWord(s, at, rest, w);
    }
  }

  /** The step of ScanSplit for a name that starts with a letter of its leading component. */
  lemma {:induction false} ScanWord(s: string, at: Position, rest: seq<string>, w: string)
    requires s != [] && s[0] != '_'
    requires rest == Split(s[1..]) && w == [s[0]] + rest[0]
    ensures Scan(s, at) == Lead(at, w) + CapitalizeAll(rest[1..])
    decreases s, 1
  {
    ScanSplit(s[1..], if at == FirstComponent then FirstComponent else ComponentRest);
    match at
    case FirstComponent =>
      ScanStep(s, at, [s[0]], FirstComponent);
    case ComponentStart =>
      ScanStep(s, at, [Upper(s[0])], ComponentRest);
      assert Capitalize(w) == [Upper(s[0])] + LowerAll(rest[0]) by {
        assert w[1..] == rest[0];
      }
    case ComponentRest =>
      ScanStep(s, at, [Lower(s[0])], ComponentRest);
      assert LowerAll(w) == [Lower(s[0])] + LowerAll(rest[0]) by {
        LowerAllCons(s[0], rest[0]);
      }
  }

  /** One unfolding of Scan at a character that is not an underscore. */
  lemma ScanStep(s: string, at: Position, head: string, next: Position)
    requires s != [] && s[0] != '_'
    requires head == (match at case FirstComponent => [s[0]] case ComponentStart => [Upper(s[0])] case ComponentRest => [Lower(s[0])])
    requires next == (if at == FirstComponent then FirstComponent else ComponentRest)
    ensures Scan(s, at) == head + Scan(s[1..], next)
  {
  }

  lemma LowerAllCons(c: char, t: string)
    ensures LowerAll([c] + t) == [Lower(c)] + LowerAll(t)
  {
  }

  /** The component-wise definition agrees with the character scan. */
  lemma CamelIsScan(s: string)
    ensures Camel(s) == Scan(s, FirstComponent)
  {
    ScanSplit(s, FirstComponent);
  }

  lemma {:induction false} ScanHasNoUnderscore(s: string, at: Position)
    ensures '_' !in Scan(s, at)
  {
    if s != [] {
      ScanHasNoUnderscore(s[1..], ComponentStart);
      ScanHasNoUnderscore(s[1..], FirstComponent);
      ScanHasNoUnderscore(s[1..], ComponentRest);
    }
  }

  /** A camelCase key never contains an underscore. */
  lemma CamelHasNoUnderscore(s: string)
    ensures '_' !in Camel(s)
  {
    CamelIsScan(s);
    ScanHasNoUnderscore(s, FirstComponent);
  }

  // ---------------------------------------------------------------------------
  // Split and Join are inverse to each other.
  // ---------------------------------------------------------------------------

  /** No component of a split name contains the separator. */
  lemma {:induction false} SplitHasNoUnderscore(s: string)
    ensures forall i :: 0 <= i < |Split(s)| ==> '_' !in Split(s)[i]
  {
    if s != [] {
      SplitHasNoUnderscore(s[1..]);
    }
  }

  lemma {:induction false} JoinSplit(s: string)
    ensures Join(Split(s)) == s
  {
    if s != [] {
      JoinSplit(s[1..]);
      var rest := Split(s[1..]);
      if s[0] == '_' {
        assert ([[]] + rest)[1..] == rest;
      } else {
        var parts := Split(s);
        if |rest| == 1 {
          assert parts == [[s[0]] + rest[0]];
        } else {
          assert parts[1..] == rest[1..];
          assert Join(rest) == rest[0] + "_" + Join(rest[1..]);
        }
      }
    }
  }

  /** Splitting a name that begins with an underscore-free word `w`. */
  lemma {:induction false} SplitPrefix(w: string, t: string)
    requires '_' !in w
    ensures Split(w + t) == [w + Split(t)[0]] + Split(t)[1..]
  {
    var p := Split(t);
    if w == [] {
      assert w + t == t && w + p[0] == p[0];
      assert p == [p[0]] + p[1..];
    } else {
      var q := Split(w[1..] + t);
      assert (w + t)[1..] == w[1..] + t;
      SplitPrefix(w[1..], t);
      assert q == [w[1..] + p[0]] + p[1..];
      assert Split(w + t) == [[w[0]] + q[0]] + q[1..];
      assert [w[0]] + (w[1..] + p[0]) == w + p[0];
    }
  }

  lemma {:induction false} SplitJoin(parts: seq<string>)
    requires |parts| >= 1
    requires forall i :: 0 <= i < |parts| ==> '_' !in parts[i]
    ensures Split(Join(parts)) == parts
  {
    if |parts| == 1 {
      SplitPrefix(parts[0], []);
      assert Split([]) == [[]];
      assert parts[0] + [] == parts[0];
      assert parts == [parts[0]];
    } else {
      var tail := Join(parts[1..]);
      SplitJoin(parts[1..]);
      assert Join(parts) == parts[0] + ("_" + tail);
      SplitPrefix(parts[0], "_" + tail);
      assert ("_" + tail)[1..] == tail;
      assert Split("_" + tail) == [[]] + parts[1..];
      assert parts[0] + [] == parts[0];
      assert parts == [parts[0]] + parts[1..];
    }
  }

  /** Splitting at an underscore concatenates the components of both sides. */
  lemma SplitAtUnderscore(s: string, t: string)
    ensures Split(s + "_" + t) == Split(s) + Split(t)
  {
    var ps := Split(s);
    var qs := Split(t);
    JoinSplit(s);
    JoinSplit(t);
    SplitHasNoUnderscore(s);
    SplitHasNoUnderscore(t);
    SplitJoin(ps + qs);
    JoinAppend(ps, qs);
  }

  lemma {:induction false} JoinAppend(ps: seq<string>, qs: seq<string>)
    requires |ps| >= 1 && |qs| >= 1
    ensures Join(ps + qs) == Join(ps) + "_" + Join(qs)
  {
    if |ps| == 1 {
      assert (ps + qs)[1..] == qs;
    } else {
      assert (ps + qs)[1..] == ps[1..] + qs;
      JoinAppend(ps[1..], qs);
    }
  }

  lemma {:induction false} CapitalizeAllAppend(xs: seq<string>, ys: seq<string>)
    ensures CapitalizeAll(xs + ys) == CapitalizeAll(xs) + CapitalizeAll(ys)
  {
    if xs == [] {
      assert xs + ys == ys;
    } else {
      assert (xs + ys)[1..] == xs[1..] + ys;
      CapitalizeAllAppend(xs[1..], ys);
    }
  }

  // ---------------------------------------------------------------------------
  // Properties of the conversion.
  // ---------------------------------------------------------------------------

  /** A name without underscores is returned unchanged. */
  lemma CamelKeepsPlainName(s: string)
    requires '_' !in s
    ensures Camel(s) == s
  {
    SplitJoin([s]);
  }

  /** Converting twice is converting once. */
  lemma CamelIdempotent(s: string)
    ensures Camel(Camel(s)) == Camel(s)
  {
    CamelHasNoUnderscore(s);
    CamelKeepsPlainName(Camel(s));
  }

  /**
   * What follows an underscore is appended capitalized, component by
   * component, after the conversion of what precedes it.
   */
  lemma CamelAtUnderscore(s: string, t: string)
    ensures Camel(s + "_" + t) == Camel(s) + CapitalizeAll(Split(t))
  {
    SplitAtUnderscore(s, t);
    JoinCamelConcat(Split(s), Split(t));
  }

  lemma JoinCamelConcat(ps: seq<string>, qs: seq<string>)
    requires ps != []
    ensures JoinCamel(ps + qs) == JoinCamel(ps) + CapitalizeAll(qs)
  {
    assert (ps + qs)[1..] == ps[1..] + qs;
    CapitalizeAllAppend(ps[1..], qs);
  }

  /** An empty component between two underscores contributes nothing. */
  lemma CamelDoubleUnderscore(s: string, t: string)
    ensures Camel(s + "__" + t) == Camel(s + "_" + t)
  {
    assert s + "__" + t == s + "_" + ("_" + t);
    CamelAtUnderscore(s, "_" + t);
    CamelAtUnderscore(s, t);
    assert Split("_" + t) == [[]] + Split(t);
  }

  /** A leading underscore leaves an empty first component, so every real component is capitalized. */
  lemma CamelLeadingUnderscore(t: string)
    ensures Camel("_" + t) == CapitalizeAll(Split(t))
  {
    assert Split("_" + t) == [[]] + Split(t);
  }

  /** Capitalizing a word whose tail has no upper-case letter only upper-cases its head. */
  lemma CapitalizeWord(w: string)
    requires w != []
    requires forall i :: 1 <= i < |w| ==> !('A' <= w[i] <= 'Z')
    ensures Capitalize(w) == [Upper(w[0])] + w[1..]
  {
    assert LowerAll(w[1..]) == w[1..];
  }

  /** The components of an underscore-free word are the word itself. */
  lemma CapitalizeAllPlain(w: string)
    requires '_' !in w
    ensures CapitalizeAll(Split(w)) == Capitalize(w)
  {
    SplitJoin([w]);
    assert CapitalizeAll([w]) == Capitalize(w) + CapitalizeAll([]);
  }

  /** The conversion of a two-component name. */
  lemma CamelTwoWords(a: string, b: string)
    requires '_' !in a && '_' !in b
    ensures Camel(a + "_" + b) == a + Capitalize(b)
  {
    CamelAtUnderscore(a, b);
    CamelKeepsPlainName(a);
    CapitalizeAllPlain(b);
  }

  /** The conversion of a three-component name. */
  lemma CamelThreeWords(a: string, b: string, c: string)
    requires '_' !in a && '_' !in b && '_' !in c
    ensures Camel(a + "_" + b + "_" + c) == a + Capitalize(b) + Capitalize(c)
  {
    CamelAtUnderscore(a + "_" + b, c);
    CamelTwoWords(a, b);
    CapitalizeAllPlain(c);
  }

  /** A word of lower-case letters (and other non-capital characters) after its first character. */
  predicate LowerTail(w: string)
  {
    w != [] && forall i :: 1 <= i < |w| ==> !('A' <= w[i] <= 'Z')
  }

  /** The key of a two-component name whose second component has a lower-case tail. */
  lemma CamelOfTwo(a: string, b: string, name: string, key: string)
    requires '_' !in a && '_' !in b && LowerTail(b)
    requires name == a + "_" + b
    requires key == a + ([Upper(b[0])] + b[1..])
    ensures Camel(name) == key
  {
    CamelTwoWords(a, b);
    CapitalizeWord(b);
  }

  /** The key of a three-component name whose later components have lower-case tails. */
  lemma CamelOfThree(a: string, b: string, c: string, name: string, key: string)
    requires '_' !in a && '_' !in b && '_' !in c && LowerTail(b) && LowerTail(c)
    requires name == a + "_" + b + "_" + c
    requires key == a + ([Upper(b[0])] + b[1..]) + ([Upper(c[0])] + c[1..])
    ensures Camel(name) == key
  {
    CamelThreeWords(a, b, c);
    CapitalizeWord(b);
    CapitalizeWord(c);
  }
}
