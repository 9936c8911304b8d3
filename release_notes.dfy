/** The comparison of "major.minor.patch" version strings that decides whether
    the release notes are shown (views/components/ReleaseNotes.tsx:307-315). */
module ReleaseNotes {
  import opened Basics

  /** `s.split(sep)`. */
  function Split(s: string, sep: char): (parts: seq<string>)
    ensures |parts| > 0
    ensures forall i :: 0 <= i < |parts| ==> sep !in parts[i]
  {
    if |s| == 0 then [""]
    else
      var parts := Split(s[..|s| - 1], sep);
      var c := s[|s| - 1];
      if c == sep then parts + [""] else parts[..|parts| - 1] + [parts[|parts| - 1] + [c]]
  }

  lemma {:induction false} JoinAppend(parts: seq<string>, p: string, sep: string)
    requires |parts| > 0
    ensures Join(parts + [p], sep) == Join(parts, sep) + sep + p
  {
    if |parts| > 1 {
      assert (parts + [p])[1..] == parts[1..] + [p];
      JoinAppend(parts[1..], p, sep);
    } else {
      assert (parts + [p])[1..] == [p];
    }
  }

  /** Splitting and joining again with the same separator gives the string back. */
  lemma {:induction false} SplitJoin(s: string, sep: char)
    ensures Join(Split(s, sep), [sep]) == s
  {
    if |s| > 0 {
      var init, c := s[..|s| - 1], s[|s| - 1];
      var parts := Split(init, sep);
      SplitJoin(init, sep);
      assert s == init + [c];
      if c == sep {
        JoinAppend(parts, "", [sep]);
      } else {
        var front, last := parts[..|parts| - 1], parts[|parts| - 1];
        assert parts == front + [last];
        if |front| == 0 {
          assert Split(s, sep) == [last + [c]];
        } else {
          JoinAppend(front, last + [c], [sep]);
          JoinAppend(front, last, [sep]);
        }
      }
    }
  }

  /** `parseInt` of a component: the value of its leading digits, or `NaN`
      (`None`) when it does not start with a digit. */
  function ParseInt(s: string): (r: Option<nat>)
    ensures r.None? <==> (|s| == 0 || !IsDigit(s[0]))
  {
    var k := LeadingDigits(s);
    if k == 0 then None else Some(DigitsValue(s[..k]))
  }

  /** Component `i` of a version; a missing one parses to `NaN`. */
  function Component(v: string, i: nat): Option<nat>
  {
    var parts := Split(v, '.');
    if i < |parts| then ParseInt(parts[i]) else None
  }

  /** `parseInt(x) > parseInt(y)`: false whenever either side is `NaN`. */
  predicate Exceeds(x: Option<nat>, y: Option<nat>)
  {
    x.Some? && y.Some? && x.value > y.value
  }

  /** `isVersionGreaterThan` as written: true as soon as any one of major,
      minor or patch is larger, whatever the more significant parts say. */
  predicate IsVersionGreaterThanAsWritten(a: string, b: string)
  {
    Exceeds(Component(a, 0), Component(b, 0))
    || Exceeds(Component(a, 1), Component(b, 1))
    || Exceeds(Component(a, 2), Component(b, 2))
  }

  /** A version of three one-digit parts splits into its three digits. */
  lemma SplitThreeDigits(x: char, y: char, z: char)
    requires x != '.' && y != '.' && z != '.'
    ensures Split([x, '.', y, '.', z], '.') == [[x], [y], [z]]
  {
    var v := [x, '.', y, '.', z];
    assert v[..4] == [x, '.', y, '.'] && v[..4][..3] == [x, '.', y];
    assert v[..4][..3][..2] == [x, '.'] && v[..4][..3][..2][..1] == [x] && [x][..0] == [];
    var e: string := [];
    assert Split(e, '.') == [e];
    assert [x][..0] == e && e + [x] == [x] && [e][..0] == [];
    assert Split([x], '.') == [[x]];
    assert Split([x, '.'], '.') == [[x], []];
    assert [[x], e][..1] == [[x]] && e + [y] == [y];
    assert Split([x, '.', y], '.') == [[x], [y]];
    assert Split([x, '.', y, '.'], '.') == [[x], [y], []];
    assert [[x], [y], e][..2] == [[x], [y]] && e + [z] == [z];
  }

  lemma SplitVersionExamples()
    ensures Split("0.9.0", '.') == ["0", "9", "0"]
    ensures Split("1.0.0", '.') == ["1", "0", "0"]
  {
    SplitThreeDigits('0', '9', '0');
    SplitThreeDigits('1', '0', '0');
  }

  /** The parts of the two versions used below. */
  lemma ComponentExamples()
    ensures Component("0.9.0", 0) == Some(0) && Component("0.9.0", 1) == Some(9)
    ensures Component("1.0.0", 0) == Some(1) && Component("1.0.0", 1) == Some(0)
  {
    SplitVersionExamples();
    assert LeadingDigits("0") == 1 && LeadingDigits("9") == 1 && LeadingDigits("1") == 1;
    assert DigitsValue("0") == 0 && DigitsValue("9") == 9 && DigitsValue("1") == 1;
    assert "0"[..1] == "0" && "9"[..1] == "9" && "1"[..1] == "1";
  }

  /** Each of two versions counts as greater than the other: "0.9.0" wins on the
      minor part, "1.0.0" on the major part. */
  lemma AsWrittenNotAntisymmetric()
    ensures IsVersionGreaterThanAsWritten("0.9.0", "1.0.0")
    ensures IsVersionGreaterThanAsWritten("1.0.0", "0.9.0")
  {
    ComponentExamples();
  }

  /** No version is greater than itself, as written or corrected. */
  lemma AsWrittenIrreflexive(v: string)
    ensures !IsVersionGreaterThanAsWritten(v, v)
  {
  }

  // ---------------------------------------------------------------------------
  // The comparison as evidently intended: lexicographic on the three parts
  // ---------------------------------------------------------------------------

  /** The three parsed parts of a version, `NaN` as `None`. */
  function Parts(v: string): (p: seq<Option<nat>>)
    ensures |p| == 3 && forall i :: 0 <= i < 3 ==> p[i] == Component(v, i)
  {
    [Component(v, 0), Component(v, 1), Component(v, 2)]
  }

  /** From part `i` on: the first part that differs decides; a part that is
      `NaN` on one side only decides nothing. */
  predicate GreaterFrom(p: seq<Option<nat>>, q: seq<Option<nat>>, i: nat)
    requires i <= 3 && |p| == 3 && |q| == 3
    decreases 3 - i
  {
    if i == 3 then false
    else if Exceeds(p[i], q[i]) then true
    else if p[i] == q[i] then GreaterFrom(p, q, i + 1)
    else false
  }

  /** The corrected `isVersionGreaterThan`. */
  predicate IsVersionGreaterThan(a: string, b: string)
  {
    GreaterFrom(Parts(a), Parts(b), 0)
  }

  /** All three parts are numbers. */
  predicate WellFormed(v: string)
  {
    forall i :: 0 <= i < 3 ==> Component(v, i).Some?
  }

  predicate AllNumbers(p: seq<Option<nat>>)
  {
    forall i :: 0 <= i < |p| ==> p[i].Some?
  }

  lemma {:induction false} GreaterFromAntisymmetric(p: seq<Option<nat>>, q: seq<Option<nat>>, i: nat)
    requires i <= 3 && |p| == 3 && |q| == 3
    ensures !(GreaterFrom(p, q, i) && GreaterFrom(q, p, i))
    ensures !GreaterFrom(p, p, i)
    decreases 3 - i
  {
    if i < 3 {
      GreaterFromAntisymmetric(p, q, i + 1);
      GreaterFromAntisymmetric(p, p, i + 1);
    }
  }

  /** The corrected comparison is a strict order: never both ways round, never
      reflexive. */
  lemma VersionOrderAntisymmetric(a: string, b: string)
    ensures !(IsVersionGreaterThan(a, b) && IsVersionGreaterThan(b, a))
    ensures !IsVersionGreaterThan(a, a)
  {
    GreaterFromAntisymmetric(Parts(a), Parts(b), 0);
  }

  lemma {:induction false} GreaterFromTransitive(p: seq<Option<nat>>, q: seq<Option<nat>>, r: seq<Option<nat>>, i: nat)
    requires i <= 3 && |p| == 3 && |q| == 3 && |r| == 3 && AllNumbers(p) && AllNumbers(q) && AllNumbers(r)
    requires GreaterFrom(p, q, i) && GreaterFrom(q, r, i)
    ensures GreaterFrom(p, r, i)
    decreases 3 - i
  {
    if i < 3 && p[i] == q[i] && q[i] == r[i] {
      GreaterFromTransitive(p, q, r, i + 1);
    }
  }

  /** On well-formed versions the corrected comparison is transitive. */
  lemma VersionOrderTransitive(a: string, b: string, c: string)
    requires WellFormed(a) && WellFormed(b) && WellFormed(c)
    requires IsVersionGreaterThan(a, b) && IsVersionGreaterThan(b, c)
    ensures IsVersionGreaterThan(a, c)
  {
    GreaterFromTransitive(Parts(a), Parts(b), Parts(c), 0);
  }

  lemma {:induction false} GreaterFromTotal(p: seq<Option<nat>>, q: seq<Option<nat>>, i: nat)
    requires i <= 3 && |p| == 3 && |q| == 3 && AllNumbers(p) && AllNumbers(q)
    requires exists j :: i <= j < 3 && p[j] != q[j]
    ensures GreaterFrom(p, q, i) || GreaterFrom(q, p, i)
    decreases 3 - i
  {
    if p[i] == q[i] {
      var j :| i <= j < 3 && p[j] != q[j];
      assert i + 1 <= j;
      GreaterFromTotal(p, q, i + 1);
    }
  }

  /** Well-formed versions that differ in some part are ordered one way. */
  lemma VersionOrderTotal(a: string, b: string)
    requires WellFormed(a) && WellFormed(b)
    requires exists j :: 0 <= j < 3 && Component(a, j) != Component(b, j)
    ensures IsVersionGreaterThan(a, b) || IsVersionGreaterThan(b, a)
  {
    var j :| 0 <= j < 3 && Component(a, j) != Component(b, j);
    assert Parts(a)[j] != Parts(b)[j];
    GreaterFromTotal(Parts(a), Parts(b), 0);
  }

  lemma {:induction false} GreaterFromHasLargerPart(p: seq<Option<nat>>, q: seq<Option<nat>>, i: nat)
    requires i <= 3 && |p| == 3 && |q| == 3 && GreaterFrom(p, q, i)
    ensures exists j :: i <= j < 3 && Exceeds(p[j], q[j])
    decreases 3 - i
  {
    if !Exceeds(p[i], q[i]) {
      GreaterFromHasLargerPart(p, q, i + 1);
    }
  }

  /** Whenever the corrected comparison says greater, so does the one as
      written; the two differ only where a less significant part is larger
      while a more significant one is smaller. */
  lemma CorrectedImpliesAsWritten(a: string, b: string)
    requires IsVersionGreaterThan(a, b)
    ensures IsVersionGreaterThanAsWritten(a, b)
  {
    GreaterFromHasLargerPart(Parts(a), Parts(b), 0);
  }

  /** Corrected, only "1.0.0" is greater than "0.9.0". */
  lemma CorrectedExample()
    ensures IsVersionGreaterThan("1.0.0", "0.9.0")
    ensures !IsVersionGreaterThan("0.9.0", "1.0.0")
  {
    ComponentExamples();
  }
}
