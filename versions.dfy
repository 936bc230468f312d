/**
  The ordering of .NET `System.Version` values that the installer's version
  gate uses: components Major, Minor, Build and Revision are compared in turn,
  and a component the version string did not give counts as -1.
 */
module Versions {

  /** A parsed version. Major and Minor are always present; Build and Revision
      hold -1 when absent, and Revision can only be present when Build is. */
  datatype Version = Version(major: nat, minor: nat, build: int, revision: int)
  {
    predicate Valid()
    {
      build >= -1 && revision >= -1 && (build == -1 ==> revision == -1)
    }

    /** The components in comparison order. */
    function Components(): (s: seq<int>)
      ensures |s| == 4
    {
      [major, minor, build, revision]
    }
  }

  /** A version as the `Version(string)` constructor can produce it. */
  type ParsedVersion = v: Version | v.Valid() witness Version(0, 0, -1, -1)

  /** `Version.CompareTo`: the sign of the first component that differs. */
  function CompareTo(a: Version, b: Version): (r: int)
    ensures -1 <= r <= 1
    ensures r == 0 <==> a == b
  {
    if a.major != b.major then (if a.major > b.major then 1 else -1)
    else if a.minor != b.minor then (if a.minor > b.minor then 1 else -1)
    else if a.build != b.build then (if a.build > b.build then 1 else -1)
    else if a.revision != b.revision then (if a.revision > b.revision then 1 else -1)
    else 0
  }

  /** `operator <` on versions: `a` is older than `b` exactly when `b`
      compares greater than `a`. */
  predicate Less(a: Version, b: Version): (r: bool)
    ensures r ==> a != b
    ensures r <==> CompareTo(b, a) > 0
  {
    CompareTo(a, b) < 0
  }

  /** Reference ordering: strict lexicographic order on equally long
      integer sequences. */
  predicate LexLess(s: seq<int>, t: seq<int>)
    requires |s| == |t|
  {
    |s| > 0 && (s[0] < t[0] || (s[0] == t[0] && LexLess(s[1..], t[1..])))
  }

  lemma {:induction false} LexLessIrreflexive(s: seq<int>)
    ensures !LexLess(s, s)
  {
    if |s| > 0 {
      LexLessIrreflexive(s[1..]);
    }
  }

  lemma {:induction false} LexLessTransitive(s: seq<int>, t: seq<int>, u: seq<int>)
    requires |s| == |t| == |u|
    requires LexLess(s, t) && LexLess(t, u)
    ensures LexLess(s, u)
  {
    if s[0] == t[0] && t[0] == u[0] {
      LexLessTransitive(s[1..], t[1..], u[1..]);
    }
  }

  lemma {:induction false} LexLessTrichotomy(s: seq<int>, t: seq<int>)
    requires |s| == |t|
    ensures s == t || LexLess(s, t) || LexLess(t, s)
  {
    if |s| > 0 && s[0] == t[0] {
      LexLessTrichotomy(s[1..], t[1..]);
      if s[1..] == t[1..] {
        assert s == [s[0]] + s[1..] && t == [t[0]] + t[1..];
      }
    }
  }

  /** The version ordering is the lexicographic ordering of the components. */
  lemma LessIsLexicographic(a: Version, b: Version)
    ensures Less(a, b) <==> LexLess(a.Components(), b.Components())
  {
    var s, t := a.Components(), b.Components();
    assert s[1..] == [a.minor, a.build, a.revision] && t[1..] == [b.minor, b.build, b.revision];
    assert s[1..][1..] == [a.build, a.revision] && t[1..][1..] == [b.build, b.revision];
    assert s[1..][1..][1..] == [a.revision] && t[1..][1..][1..] == [b.revision];
    assert LexLess([a.revision], [b.revision]) <==> a.revision < b.revision;
    assert LexLess([a.build, a.revision], [b.build, b.revision])
      <==> a.build < b.build || (a.build == b.build && a.revision < b.revision);
    assert LexLess([a.minor, a.build, a.revision], [b.minor, b.build, b.revision])
      <==> a.minor < b.minor || (a.minor == b.minor && LexLess([a.build, a.revision], [b.build, b.revision]));
  }

  /** `CompareTo` is antisymmetric. */
  lemma CompareToAntisymmetric(a: Version, b: Version)
    ensures CompareTo(b, a) == -CompareTo(a, b)
  {
  }

  /** `<` on versions is a strict total order, inherited from the
      lexicographic order through `LessIsLexicographic`. */
  lemma LessIsStrictTotalOrder(a: Version, b: Version, c: Version)
    ensures !Less(a, a)
    ensures Less(a, b) && Less(b, c) ==> Less(a, c)
    ensures a == b || Less(a, b) || Less(b, a)
    ensures !(Less(a, b) && Less(b, a))
  {
    var s, t, u := a.Components(), b.Components(), c.Components();
    LessIsLexicographic(a, a);
    LessIsLexicographic(a, b);
    LessIsLexicographic(b, a);
    LessIsLexicographic(b, c);
    LessIsLexicographic(a, c);
    LexLessIrreflexive(s);
    if Less(a, b) && Less(b, c) {
      LexLessTransitive(s, t, u);
    }
    if Less(a, b) && Less(b, a) {
      LexLessTransitive(s, t, s);
    }
    LexLessTrichotomy(s, t);
    if s == t {
      assert a.major == s[0] == t[0] == b.major && a.minor == s[1] == t[1] == b.minor;
      assert a.build == s[2] == t[2] == b.build && a.revision == s[3] == t[3] == b.revision;
    }
  }

  /** The gate `!(shell < minimal)` admits exactly the versions equal to or
      newer than the minimum. */
  lemma GateAdmitsEqualOrNewer(shell: Version, minimal: Version)
    ensures !Less(shell, minimal) <==> shell == minimal || Less(minimal, shell)
  {
  }
}
