/**
 * The settings redaction filter of the SSL plugin: every setting whose key
 * fully matches the regular expression `searchguard.ssl.*` is removed, in
 * place, from the settings map before the settings are shown to anyone.
 *
 * The regular expression is modelled as its compiled token sequence and a
 * backtracking full-match predicate with the semantics of
 * `java.util.regex.Matcher.matches()` for the constructs the pattern uses:
 * literal characters, `.` and `*`.
 */
module SettingsFilter {

  // ---------------------------------------------------------------------
  // Regular expressions: the fragment `searchguard.ssl.*` needs
  // ---------------------------------------------------------------------

  /** A single-character pattern: a literal character or `.`. */
  datatype Atom = Literal(c: char) | AnyChar

  /** An atom on its own, or an atom followed by `*`. */
  datatype Token = One(atom: Atom) | Star(atom: Atom)

  /**
   * The line terminators of `java.util.regex.Pattern` (without the
   * UNIX_LINES flag); `.` matches any character except these.
   */
  predicate IsLineTerminator(c: char) {
    c == '\n' || c == '\r' || c == '\U{85}' || c == '\U{2028}' || c == '\U{2029}'
  }

  predicate AtomMatches(a: Atom, c: char) {
    match a
    case Literal(l) => c == l
    case AnyChar => !IsLineTerminator(c)
  }

  /** `matcher(s).matches()`: the WHOLE of `s` is matched by the tokens `p`. */
  predicate FullMatch(p: seq<Token>, s: string)
    decreases |s|, |p|
  {
    if p == [] then s == []
    else
      match p[0]
      case One(a) => |s| > 0 && AtomMatches(a, s[0]) && FullMatch(p[1..], s[1..])
      case Star(a) =>
        FullMatch(p[1..], s) || (|s| > 0 && AtomMatches(a, s[0]) && FullMatch(p, s[1..]))
  }

  /** The tokens of a pattern made only of literal characters. */
  function Literals(w: string): seq<Token> {
    seq(|w|, i requires 0 <= i < |w| => One(Literal(w[i])))
  }

  const Searchguard: string := "searchguard"
  const Ssl: string := "ssl"

  /** FILTER_PATTERN, `searchguard.ssl.*`, compiled: `searchguard`, `.`, `ssl`, `.*`. */
  function FilterPattern(): seq<Token> {
    Literals(Searchguard) + ([One(AnyChar)] + (Literals(Ssl) + [Star(AnyChar)]))
  }

  /** The test the filter applies to every key. */
  predicate Matches(key: string) {
    FullMatch(FilterPattern(), key)
  }

  /**
   * Reference reading of the pattern: "searchguard", one character other
   * than a line terminator (a wildcard, not a literal dot), "ssl", then
   * any rest free of line terminators.
   */
  predicate IsFilteredKey(key: string) {
    && |key| >= 15
    && key[..11] == "searchguard"
    && !IsLineTerminator(key[11])
    && key[12..15] == "ssl"
    && forall i :: 15 <= i < |key| ==> !IsLineTerminator(key[i])
  }

  // ---------------------------------------------------------------------
  // What the compiled pattern matches
  // ---------------------------------------------------------------------

  /** A literal prefix of the pattern consumes exactly that prefix of the input. */
  lemma {:induction false} LiteralsPrefix(w: string, rest: seq<Token>, s: string)
    ensures FullMatch(Literals(w) + rest, s) <==> |s| >= |w| && s[..|w|] == w && FullMatch(rest, s[|w|..])
  {
    if w == [] {
      assert Literals(w) + rest == rest;
      assert s[..0] == w && s[0..] == s;
    } else {
      var p := Literals(w) + rest;
      assert p[0] == One(Literal(w[0]));
      assert p[1..] == Literals(w[1..]) + rest;
      if |s| > 0 {
        LiteralsPrefix(w[1..], rest, s[1..]);
        if |s| >= |w| {
          assert s[1..][..|w| - 1] == s[1..|w|];
          assert s[1..][|w| - 1..] == s[|w|..];
          assert s[..|w|] == [s[0]] + s[1..|w|];
          assert w == [w[0]] + w[1..];
        }
      }
    }
  }

  /** `.*` at the end of a pattern matches exactly the strings without line terminators. */
  lemma {:induction false} AnyStarMatches(s: string)
    ensures FullMatch([Star(AnyChar)], s) <==> forall i :: 0 <= i < |s| ==> !IsLineTerminator(s[i])
  {
    var p := [Star(AnyChar)];
    assert p[1..] == [];
    if s != [] {
      AnyStarMatches(s[1..]);
      assert forall i :: 1 <= i < |s| ==> s[i] == s[1..][i - 1];
    }
  }

  /**
   * A pattern of the shape `w1` `.` `w2` `.*`, for any words `w1` and `w2`
   * (the filter pattern is the instance `searchguard`, `ssl`).
   */
  lemma {:induction false} WordAnyWordAnyStar(w1: string, w2: string, key: string)
    ensures FullMatch(Literals(w1) + ([One(AnyChar)] + (Literals(w2) + [Star(AnyChar)])), key) <==>
      && |key| >= |w1| + 1 + |w2|
      && key[..|w1|] == w1
      && !IsLineTerminator(key[|w1|])
      && key[|w1| + 1..|w1| + 1 + |w2|] == w2
      && forall i :: |w1| + 1 + |w2| <= i < |key| ==> !IsLineTerminator(key[i])
  {
    var afterDot := Literals(w2) + [Star(AnyChar)];
    var afterWord := [One(AnyChar)] + afterDot;
    LiteralsPrefix(w1, afterWord, key);
    var n := |w1| + 1 + |w2|;
    if |key| >= |w1| && key[..|w1|] == w1 {
      var r := key[|w1|..];
      assert afterWord[0] == One(AnyChar) && afterWord[1..] == afterDot;
      if |r| > 0 {
        assert r[0] == key[|w1|];
        var t := r[1..];
        assert t == key[|w1| + 1..];
        LiteralsPrefix(w2, [Star(AnyChar)], t);
        if |t| >= |w2| && t[..|w2|] == w2 {
          AnyStarMatches(t[|w2|..]);
          assert t[|w2|..] == key[n..];
          assert forall i :: n <= i < |key| ==> key[i] == key[n..][i - n];
        }
        if |key| >= n {
          assert t[..|w2|] == key[|w1| + 1..n];
        }
      }
    }
  }

  /** The filter's test and the reference reading agree on every key. */
  lemma MatchesIffFilteredKey(key: string)
    ensures Matches(key) <==> IsFilteredKey(key)
  {
    WordAnyWordAnyStar(Searchguard, Ssl, key);
  }

  lemma AllMatchesIffFilteredKey()
    ensures forall key :: Matches(key) <==> IsFilteredKey(key)
  {
    forall key ensures Matches(key) <==> IsFilteredKey(key) {
      MatchesIffFilteredKey(key);
    }
  }

  /** Every key built as `searchguard`, a separator, `ssl`, a rest has the filtered form. */
  lemma FilteredKeyOf(sep: char, rest: string)
    requires !IsLineTerminator(sep)
    requires forall i :: 0 <= i < |rest| ==> !IsLineTerminator(rest[i])
    ensures IsFilteredKey("searchguard" + [sep] + "ssl" + rest)
  {
    var key := "searchguard" + [sep] + "ssl" + rest;
    assert key[..11] == "searchguard";
    assert key[12..15] == "ssl";
    assert forall i :: 15 <= i < |key| ==> key[i] == rest[i - 15];
  }

  /** A configured SSL setting key is removed. */
  lemma KeystorePathIsRemoved()
    ensures Matches("searchguard.ssl" + ".transport.keystore_filepath")
  {
    var rest := ".transport.keystore_filepath";
    FilteredKeyOf('.', rest);
    assert "searchguard" + ['.'] + "ssl" == "searchguard.ssl";
    MatchesIffFilteredKey("searchguard.ssl" + rest);
  }

  /** The `.` of the pattern is a wildcard: any character may separate the words. */
  lemma WildcardSeparatorIsRemoved()
    ensures Matches("searchguardXssl")
  {
    FilteredKeyOf('X', "");
    assert "searchguard" + ['X'] + "ssl" + "" == "searchguardXssl";
    MatchesIffFilteredKey("searchguardXssl");
  }

  /** The match is anchored at the start of the key. */
  lemma PrefixedKeyIsKept()
    ensures !Matches("xsearchguard.ssl")
  {
    MatchesIffFilteredKey("xsearchguard.ssl");
    assert "xsearchguard.ssl"[0] == 'x';
  }

  lemma MisspelledKeyIsKept()
    ensures !Matches("searchguard.sl")
  {
    MatchesIffFilteredKey("searchguard.sl");
  }

  /** `.` does not match a line terminator, so such a key is kept. */
  lemma LineTerminatorSeparatorIsKept()
    ensures !Matches("searchguard\nssl")
  {
    MatchesIffFilteredKey("searchguard\nssl");
    assert "searchguard\nssl"[11] == '\n';
  }

  // ---------------------------------------------------------------------
  // The filter
  // ---------------------------------------------------------------------

  /** The settings map once filtered: the entries whose key does not match. */
  function Redacted(m: map<string, string>): (r: map<string, string>)
    ensures r.Keys <= m.Keys
    ensures forall k :: k in r ==> r[k] == m[k] && !IsFilteredKey(k)
    ensures forall k :: k in m && !IsFilteredKey(k) ==> k in r
  {
    AllMatchesIffFilteredKey();
    map k | k in m && !Matches(k) :: m[k]
  }

  /** A sub-map that keeps exactly the entries with non-matching keys is the redacted map. */
  lemma RedactedUnique(m: map<string, string>, r: map<string, string>)
    requires r.Keys <= m.Keys
    requires forall k :: k in r ==> r[k] == m[k]
    requires forall k :: k in m ==> (k in r <==> !Matches(k))
    ensures r == Redacted(m)
  {
    AllMatchesIffFilteredKey();
  }

  lemma RedactedIdempotent(m: map<string, string>)
    ensures Redacted(Redacted(m)) == Redacted(m)
  {
  }

  /** The builder whose internal map the filter edits. */
  class SettingsBuilder {
    var internalMap: map<string, string>

    constructor(settings: map<string, string>)
      ensures internalMap == settings
    {
      internalMap := settings;
    }
  }

  /**
   * Walks the entries of the builder's map in any order and removes each
   * entry whose key matches the filter pattern.
   */
  method Filter(settings: SettingsBuilder)
    modifies settings
    ensures settings.internalMap == Redacted(old(settings.internalMap))
  {
    ghost var original := settings.internalMap;
    // the keys already returned by the iterator, and those of them removed
    ghost var visited: set<string> := {};
    ghost var removed: set<string> := {};
    // the keys the iterator has not yet returned
    var pending := settings.internalMap.Keys;
    while pending != {}
      invariant pending + visited == original.Keys && pending !! visited
      invariant removed <= visited
      invariant forall k :: k in visited ==> (k in removed <==> Matches(k))
      invariant settings.internalMap == original - removed
      decreases pending
    {
      var key :| key in pending;
      pending := pending - {key};
      visited := visited + {key};
      if Matches(key) {
        settings.internalMap := settings.internalMap - {key};
        removed := removed + {key};
      }
    }
    RedactedUnique(original, settings.internalMap);
  }
}
