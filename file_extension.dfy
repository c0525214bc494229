/** How the model loader derives a file extension from a file name or a URL
    path: `name.split('.').pop().toLowerCase()`. */
module FileExtension {

  /** The segments of `s` between '.' separators, as `s.split('.')` returns them:
      never empty, and no segment holds a '.'. */
  function Split(s: string): (parts: seq<string>)
    ensures |parts| >= 1
    ensures forall i :: 0 <= i < |parts| ==> '.' !in parts[i]
    decreases |s|
  {
    if s == [] then [[]]
    else
      var init := Split(s[..|s| - 1]);
      var c := s[|s| - 1];
      if c == '.' then init + [[]]
      else init[..|init| - 1] + [init[|init| - 1] + [c]]
  }

  /** The inverse of Split: the segments glued back together with '.'. */
  function Join(parts: seq<string>): (s: string)
    requires |parts| >= 1
    decreases |parts|
  {
    if |parts| == 1 then parts[0]
    else Join(parts[..|parts| - 1]) + "." + parts[|parts| - 1]
  }

  /** `split('.').pop()`: the last segment, before lower-casing. */
  function RawExtension(name: string): string {
    var parts := Split(name);
    parts[|parts| - 1]
  }

  /** `String.prototype.toLowerCase` on one character, for the ASCII letters. */
  function LowerChar(c: char): (d: char)
    ensures ('A' <= c <= 'Z') ==> d as int == c as int + 32
    ensures !('A' <= c <= 'Z') ==> d == c
    ensures 'A' <= d <= 'Z' ==> false
  {
    if 'A' <= c <= 'Z' then (c as int + 32) as char else c
  }

  /** `toLowerCase` on a string: no upper-case letter is left, every other
      character is kept in place, and '.' separators are neither made nor lost. */
  function ToLower(s: string): (t: string)
    ensures |t| == |s|
    ensures forall i :: 0 <= i < |t| ==> !('A' <= t[i] <= 'Z')
    ensures forall i :: 0 <= i < |s| ==> t[i] == s[i] || ('A' <= s[i] <= 'Z' && t[i] as int == s[i] as int + 32)
    ensures '.' in s <==> '.' in t
  {
    var t := seq(|s|, i requires 0 <= i < |s| => LowerChar(s[i]));
    assert '.' in t ==> '.' in s by {
      if '.' in t {
        var k :| 0 <= k < |t| && t[k] == '.';
        assert s[k] == '.';
      }
    }
    assert '.' in s ==> '.' in t by {
      if '.' in s {
        var k :| 0 <= k < |s| && s[k] == '.';
        assert t[k] == '.';
      }
    }
    t
  }

  /** Lower-casing twice is lower-casing once. */
  lemma ToLowerIdempotent(s: string)
    ensures ToLower(ToLower(s)) == ToLower(s)
  {
    var t := ToLower(s);
    assert forall k :: 0 <= k < |t| ==> ToLower(t)[k] == t[k];
  }

  /** The extension the loader dispatches on. */
  function Extension(name: string): string {
    ToLower(RawExtension(name))
  }

  /** Splitting a string that holds no '.' gives that string alone. */
  lemma {:induction false} SplitWithoutDot(t: string)
    requires '.' !in t
    ensures Split(t) == [t]
    decreases |t|
  {
    if t != [] {
      var u := t[..|t| - 1];
      assert '.' !in u by {
        forall k | 0 <= k < |u| ensures u[k] != '.' { assert u[k] == t[k]; }
      }
      SplitWithoutDot(u);
      assert u + [t[|t| - 1]] == t;
    }
  }

  /** A segment appended after a '.' becomes the last segment of the split. */
  lemma {:induction false} SplitDotSuffix(x: string, t: string)
    requires '.' !in t
    ensures Split(x + "." + t) == Split(x) + [t]
    decreases |t|
  {
    var s := x + "." + t;
    if t == [] {
      assert s[..|s| - 1] == x;
      assert s[|s| - 1] == '.';
    } else {
      var u := t[..|t| - 1];
      var c := t[|t| - 1];
      assert '.' !in u by {
        forall k | 0 <= k < |u| ensures u[k] != '.' { assert u[k] == t[k]; }
      }
      assert c != '.' by { assert t[|t| - 1] in t; }
      SplitDotSuffix(x, u);
      assert s[..|s| - 1] == x + "." + u;
      assert s[|s| - 1] == c;
      var init := Split(x) + [u];
      assert Split(s) == init[..|init| - 1] + [init[|init| - 1] + [c]];
      assert init[..|init| - 1] == Split(x);
      assert u + [c] == t;
    }
  }

  /** Round trip one way: splitting and joining again gives back the string. */
  lemma {:induction false} JoinSplit(s: string)
    ensures Join(Split(s)) == s
    decreases |s|
  {
    if s != [] {
      var x := s[..|s| - 1];
      var c := s[|s| - 1];
      JoinSplit(x);
      var init := Split(x);
      var k := |init| - 1;
      assert x + [c] == s;
      if c == '.' {
        assert (init + [[]])[..|init|] == init;
        assert Join(init + [[]]) == Join(init) + "." + [];
      } else {
        var parts := init[..k] + [init[k] + [c]];
        if k == 0 {
          assert parts == [init[0] + [c]];
        } else {
          assert parts[..k] == init[..k];
          assert Join(init) == Join(init[..k]) + "." + init[k];
          assert Join(parts) == Join(init[..k]) + "." + (init[k] + [c]);
        }
      }
    }
  }

  /** Round trip the other way: joining dot-free segments and splitting again
      gives back the segments. */
  lemma {:induction false} SplitJoin(parts: seq<string>)
    requires |parts| >= 1
    requires forall i :: 0 <= i < |parts| ==> '.' !in parts[i]
    ensures Split(Join(parts)) == parts
    decreases |parts|
  {
    if |parts| == 1 {
      SplitWithoutDot(parts[0]);
    } else {
      var init := parts[..|parts| - 1];
      SplitJoin(init);
      SplitDotSuffix(Join(init), parts[|parts| - 1]);
      assert init + [parts[|parts| - 1]] == parts;
    }
  }

  /** The raw extension is the text after the last '.', or the whole name when
      the name holds no '.'. */
  lemma RawExtensionAfterLastDot(prefix: string, tail: string)
    requires '.' !in tail
    ensures RawExtension(prefix + "." + tail) == tail
    ensures RawExtension(tail) == tail
  {
    SplitDotSuffix(prefix, tail);
    SplitWithoutDot(tail);
  }

  /** Every name ends with its raw extension, which holds no '.', and which is
      either the whole name or preceded by a '.'. */
  lemma RawExtensionIsLastSegment(name: string)
    ensures var raw := RawExtension(name);
      '.' !in raw && |raw| <= |name| && name[|name| - |raw|..] == raw &&
      (|raw| < |name| ==> name[|name| - |raw| - 1] == '.')
  {
    var parts := Split(name);
    var raw := parts[|parts| - 1];
    JoinSplit(name);
    if |parts| > 1 {
      var head := Join(parts[..|parts| - 1]);
      assert name == head + "." + raw;
      assert name[|name| - |raw|..] == raw;
      assert name[|name| - |raw| - 1] == '.';
    }
  }

  /** Lower-casing keeps a string free of '.'. */
  lemma ToLowerKeepsNoDot(t: string)
    requires '.' !in t
    ensures '.' !in ToLower(t)
  {
    var r := ToLower(t);
    forall k | 0 <= k < |r| ensures r[k] != '.' {
      assert t[k] != '.';
    }
  }

  /** The extension is the lower-cased text after the last '.' of the name. */
  lemma ExtensionAfterLastDot(prefix: string, tail: string)
    requires '.' !in tail
    ensures Extension(prefix + "." + tail) == ToLower(tail)
    ensures '.' !in Extension(prefix + "." + tail)
  {
    RawExtensionAfterLastDot(prefix, tail);
    ToLowerKeepsNoDot(tail);
  }

  /** A name with no '.' is its own extension, lower-cased. */
  lemma ExtensionWithoutDot(name: string)
    requires '.' !in name
    ensures Extension(name) == ToLower(name)
  {
    RawExtensionAfterLastDot([], name);
  }

  /** Lower-casing is idempotent, so the extension of an extension is itself. */
  lemma ExtensionIsStable(name: string)
    ensures Extension(Extension(name)) == Extension(name)
  {
    var raw := RawExtension(name);
    RawExtensionIsLastSegment(name);
    ToLowerKeepsNoDot(raw);
    ExtensionWithoutDot(Extension(name));
    ToLowerIdempotent(raw);
  }

  /** A name with several dots in upper case: "A.B.SPLAT" has extension "splat". */
  lemma UpperCaseDoubleDotExample()
    ensures Extension("A.B.SPLAT") == "splat"
  {
    assert "A.B.SPLAT" == "A.B" + "." + "SPLAT";
    ExtensionAfterLastDot("A.B", "SPLAT");
    var t := ToLower("SPLAT");
    assert t[0] == 's' && t[1] == 'p' && t[2] == 'l' && t[3] == 'a' && t[4] == 't';
  }

  /** The three ways the loader dispatches on an extension. */
  datatype Format = SpzFormat | SplatFormat | UnsupportedFormat

  function Dispatch(ext: string): (f: Format)
    ensures f == SpzFormat <==> ext == "spz"
    ensures f == SplatFormat <==> ext == "splat" || ext == "ply"
  {
    if ext == "spz" then SpzFormat
    else if ext == "splat" || ext == "ply" then SplatFormat
    else UnsupportedFormat
  }

  /** `raw` spells `word` with any of its letters in upper case. */
  predicate SameLettersIgnoringCase(raw: string, word: string) {
    |raw| == |word| &&
    forall i :: 0 <= i < |raw| ==> raw[i] == word[i] || raw[i] as int + 32 == word[i] as int
  }

  predicate LowerCaseWord(word: string) {
    forall i :: 0 <= i < |word| ==> 'a' <= word[i] <= 'z'
  }

  /** Lower-casing matches a lower-case word exactly when the text spells the
      word in any mixture of cases. */
  lemma ToLowerMatchesIgnoringCase(raw: string, word: string)
    requires LowerCaseWord(word)
    ensures ToLower(raw) == word <==> SameLettersIgnoringCase(raw, word)
  {
    var t := ToLower(raw);
    if SameLettersIgnoringCase(raw, word) {
      forall k | 0 <= k < |t| ensures t[k] == word[k] {
        assert 'a' <= word[k] <= 'z';
      }
    }
  }

  /** The loader's dispatch ignores case: "x.SpZ" selects the importer and
      "x.PLY" the splat loader, while any other spelling is unsupported. */
  lemma DispatchIgnoresCase(name: string)
    ensures Dispatch(Extension(name)) == SpzFormat <==> SameLettersIgnoringCase(RawExtension(name), "spz")
    ensures Dispatch(Extension(name)) == SplatFormat <==>
      SameLettersIgnoringCase(RawExtension(name), "splat") || SameLettersIgnoringCase(RawExtension(name), "ply")
  {
    var raw := RawExtension(name);
    assert LowerCaseWord("spz") && LowerCaseWord("splat") && LowerCaseWord("ply");
    ToLowerMatchesIgnoringCase(raw, "spz");
    ToLowerMatchesIgnoringCase(raw, "splat");
    ToLowerMatchesIgnoringCase(raw, "ply");
  }

  /** A name without any '.' dispatches on the whole (lower-cased) name, so
      "splat" on its own still selects the splat loader while "model" does not. */
  lemma DotlessNameDispatch()
    ensures Dispatch(Extension("model")) == UnsupportedFormat
    ensures Dispatch(Extension("SPZ")) == SpzFormat
  {
    ExtensionWithoutDot("model");
    ExtensionWithoutDot("SPZ");
    var m := ToLower("model");
    assert m[0] == 'm';
    var z := ToLower("SPZ");
    assert z[0] == 's' && z[1] == 'p' && z[2] == 'z';
    assert z == "spz";
  }

  /** The parts of a parsed URL the loader can see; only the path is used. */
  datatype ParsedUrl = ParsedUrl(pathname: string, search: string, hash: string)

  function UrlExtension(u: ParsedUrl): string {
    Extension(u.pathname)
  }

  /** A query string can hold dots of its own, yet it never changes the extension. */
  lemma QueryStringIgnored(u: ParsedUrl, search: string, hash: string)
    ensures UrlExtension(u.(search := search, hash := hash)) == UrlExtension(u)
  {
  }

  /** An example where reading the extension off the raw URL text would go wrong
      but reading it off the path does not. */
  lemma QueryStringExample()
    ensures UrlExtension(ParsedUrl("/m/scene.ply", "?v=1.2", "")) == "ply"
    ensures Extension("https://h/m/scene.ply?v=1.2") == "2"
  {
    assert "/m/scene.ply" == "/m/scene" + "." + "ply";
    ExtensionAfterLastDot("/m/scene", "ply");
    var p := ToLower("ply");
    assert p[0] == 'p' && p[1] == 'l' && p[2] == 'y';
    assert "https://h/m/scene.ply?v=1.2" == "https://h/m/scene.ply?v=1" + "." + "2";
    ExtensionAfterLastDot("https://h/m/scene.ply?v=1", "2");
    var two := ToLower("2");
    assert two[0] == '2';
  }
}
