/**
 * The pieces of Ruby's string semantics the library relies on: `to_s` on
 * the names callers pass (strings or symbols), and `split('/').last`, which
 * is how a ref is read off a `Location` header.
 */
module RubyText {
  import opened Wrappers

  /** A name as a caller may pass it: a String or a Symbol. */
  datatype Name = Str(s: string) | Sym(id: string)

  /** `name.to_s`: a symbol and a string with the same text agree. */
  function ToS(n: Name): (r: string)
    ensures n == Str(r) || n == Sym(r)
  {
    match n
    case Str(s) => s
    case Sym(id) => id
  }

  /** Every `/`-separated field of `s`, trailing empty fields included. */
  function Fields(s: string): (r: seq<string>)
    ensures |r| >= 1
    ensures forall i :: 0 <= i < |r| ==> '/' !in r[i]
    decreases |s|
  {
    if s == [] then [""]
    else
      var rest := Fields(s[..|s| - 1]);
      var c := s[|s| - 1];
      if c == '/' then rest + [""]
      else rest[..|rest| - 1] + [rest[|rest| - 1] + [c]]
  }

  /** Joins fields back together with `/`. */
  function Join(fs: seq<string>): string
    requires |fs| >= 1
  {
    if |fs| == 1 then fs[0] else Join(fs[..|fs| - 1]) + "/" + fs[|fs| - 1]
  }

  /** Removes the trailing empty fields, as Ruby's `String#split` does. */
  function DropTrailingEmpty(fs: seq<string>): (r: seq<string>)
    ensures r <= fs
    ensures |r| > 0 ==> r[|r| - 1] != ""
    ensures forall i :: |r| <= i < |fs| ==> fs[i] == ""
  {
    if |fs| > 0 && fs[|fs| - 1] == "" then DropTrailingEmpty(fs[..|fs| - 1]) else fs
  }

  /** `s.split('/')`. */
  function Split(s: string): (r: seq<string>)
    ensures forall i :: 0 <= i < |r| ==> '/' !in r[i]
    ensures |r| > 0 ==> r[|r| - 1] != ""
    ensures r <= Fields(s) && forall i :: |r| <= i < |Fields(s)| ==> Fields(s)[i] == ""
  {
    DropTrailingEmpty(Fields(s))
  }

  /** A string without `/` is a single field. */
  lemma {:induction false} SlashFreeIsOneField(s: string)
    requires '/' !in s
    ensures Fields(s) == [s]
    decreases |s|
  {
    if s != [] {
      var p := s[..|s| - 1];
      SlashFreeIsOneField(p);
      assert p + [s[|s| - 1]] == s;
    }
  }

  /**
   * `s.split('/').last`: `nil` (None) when no field is left, and the whole
   * string when it is a non-empty string without `/`.
   */
  function LastSegment(s: string): (r: Option<string>)
    ensures r.Some? ==> r.value != "" && '/' !in r.value
    ensures s != "" && '/' !in s ==> r == Some(s)
  {
    var fs := Split(s);
    var last := if |fs| == 0 then None else Some(fs[|fs| - 1]);
    if '/' in s then last else SlashFreeIsOneField(s); last
  }

  lemma JoinExtendsLast(fs: seq<string>, c: char)
    requires |fs| >= 1
    ensures Join(fs[..|fs| - 1] + [fs[|fs| - 1] + [c]]) == Join(fs) + [c]
  {
    var gs := fs[..|fs| - 1] + [fs[|fs| - 1] + [c]];
    if |fs| > 1 {
      assert gs[..|gs| - 1] == fs[..|fs| - 1];
    }
  }

  /** Splitting on every `/` and joining again gives back the string. */
  lemma {:induction false} JoinFields(s: string)
    ensures Join(Fields(s)) == s
    decreases |s|
  {
    if s != [] {
      var p := s[..|s| - 1];
      var rest := Fields(p);
      JoinFields(p);
      if s[|s| - 1] == '/' {
        assert (rest + [""])[..|rest|] == rest;
      } else {
        JoinExtendsLast(rest, s[|s| - 1]);
      }
      assert p + [s[|s| - 1]] == s;
    }
  }

  /** The last field of `prefix + "/" + seg` is `seg`, whatever the prefix. */
  lemma {:induction false} LastFieldAfterSlash(prefix: string, seg: string)
    requires '/' !in seg
    ensures var fs := Fields(prefix + "/" + seg); fs[|fs| - 1] == seg
    decreases |seg|
  {
    if seg != [] {
      var shorter := seg[..|seg| - 1];
      LastFieldAfterSlash(prefix, shorter);
      assert (prefix + "/" + seg)[..|prefix + "/" + seg| - 1] == prefix + "/" + shorter;
      assert shorter + [seg[|seg| - 1]] == seg;
    } else {
      assert (prefix + "/")[..|prefix + "/"| - 1] == prefix;
    }
  }

  /** A `Location` ending in `/<ref>` yields that ref. */
  lemma RefFromLocation(prefix: string, ref: string)
    requires ref != "" && '/' !in ref
    ensures LastSegment(prefix + "/" + ref) == Some(ref)
  {
    LastFieldAfterSlash(prefix, ref);
  }

  /** Trailing slashes do not change the last segment. */
  lemma TrailingSlashIgnored(s: string)
    ensures LastSegment(s + "/") == LastSegment(s)
  {
    var t := s + "/";
    assert t[..|t| - 1] == s;
    assert Fields(t) == Fields(s) + [""];
    assert (Fields(s) + [""])[..|Fields(s)|] == Fields(s);
  }

  /** `split('/').last` is nil exactly when the string holds nothing but slashes. */
  lemma {:induction false} NoSegmentOnlySlashes(s: string)
    ensures LastSegment(s).None? <==> forall i :: 0 <= i < |s| ==> s[i] == '/'
    decreases |s|
  {
    if s != [] {
      var p := s[..|s| - 1];
      assert p + [s[|s| - 1]] == s;
      if s[|s| - 1] == '/' {
        TrailingSlashIgnored(p);
        NoSegmentOnlySlashes(p);
        assert (forall i :: 0 <= i < |s| ==> s[i] == '/') <==> (forall i :: 0 <= i < |p| ==> p[i] == '/');
      } else {
        var fs := Fields(s);
        assert fs[|fs| - 1] != "";
        assert Split(s) == fs;
      }
    }
  }
}
