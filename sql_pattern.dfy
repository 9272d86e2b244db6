/**
 * The `ILIKE` test the store applies to `service_name`: a SQL pattern where
 * '%' matches any run of characters and '_' matches one character, compared
 * without regard to case.
 */
module SqlPattern {

  /** Case folding on ASCII letters. */
  function Fold(c: char): char
  {
    if 'A' <= c <= 'Z' then (c as int - 'A' as int + 'a' as int) as char else c
  }

  /** `text ILIKE pattern`. */
  predicate ILike(text: string, pattern: string)
    decreases |text| + |pattern|
  {
    if pattern == [] then text == []
    else if pattern[0] == '%' then
      ILike(text, pattern[1..]) || (text != [] && ILike(text[1..], pattern))
    else if pattern[0] == '_' then
      text != [] && ILike(text[1..], pattern[1..])
    else
      text != [] && Fold(text[0]) == Fold(pattern[0]) && ILike(text[1..], pattern[1..])
  }

  /** `x` holds no pattern wildcard, so inside a pattern it stands for itself. */
  predicate Literal(x: string)
  {
    forall i :: 0 <= i < |x| ==> x[i] != '%' && x[i] != '_'
  }

  /** Equal after case folding. */
  predicate FoldEqual(a: string, b: string)
  {
    |a| == |b| && forall i :: 0 <= i < |a| ==> Fold(a[i]) == Fold(b[i])
  }

  /** `x` occurs in `text` at position `i`, ignoring case. */
  predicate OccursAt(text: string, x: string, i: int)
  {
    0 <= i <= |text| - |x| && FoldEqual(text[i..i + |x|], x)
  }

  /** `x` occurs in `text`, ignoring case. */
  predicate ContainsIgnoringCase(text: string, x: string)
  {
    exists i :: 0 <= i <= |text| - |x| && OccursAt(text, x, i)
  }

  lemma {:induction false} PercentMatchesAnything(text: string)
    ensures ILike(text, "%")
    decreases |text|
  {
    assert "%"[1..] == [];
    if text != [] {
      PercentMatchesAnything(text[1..]);
    }
  }

  /** A literal followed by '%' matches exactly the texts that start with that literal. */
  lemma {:induction false} LiteralPrefix(u: string, x: string)
    requires Literal(x)
    ensures ILike(u, x + "%") <==> |u| >= |x| && FoldEqual(u[..|x|], x)
    decreases |x|
  {
    if x == [] {
      assert x + "%" == "%";
      PercentMatchesAnything(u);
    } else {
      var p := x + "%";
      assert p[0] == x[0];
      assert p[1..] == x[1..] + "%";
      if u != [] {
        LiteralPrefix(u[1..], x[1..]);
        if |u| >= |x| {
          assert u[1..][..|x| - 1] == u[1..|x|];
          if FoldEqual(u[..|x|], x) {
            assert forall i :: 0 <= i < |x| - 1 ==> u[1..|x|][i] == u[..|x|][i + 1];
            assert FoldEqual(u[1..][..|x| - 1], x[1..]);
          }
          if Fold(u[0]) == Fold(x[0]) && FoldEqual(u[1..][..|x| - 1], x[1..]) {
            forall i | 0 <= i < |x| ensures Fold(u[..|x|][i]) == Fold(x[i]) {
              if i > 0 {
                assert u[..|x|][i] == u[1..][..|x| - 1][i - 1];
              }
            }
          }
        }
      }
    }
  }

  /** A leading '%' lets the rest of the pattern match at any position. */
  lemma {:induction false} LeadingPercent(text: string, y: string)
    ensures ILike(text, "%" + y) <==> exists i :: 0 <= i <= |text| && ILike(text[i..], y)
    decreases |text|
  {
    var p := "%" + y;
    assert p[1..] == y;
    assert text[0..] == text;
    if text != [] {
      LeadingPercent(text[1..], y);
      if ILike(text[1..], p) {
        var i :| 0 <= i <= |text[1..]| && ILike(text[1..][i..], y);
        assert text[1..][i..] == text[i + 1..];
      }
      if exists i :: 0 <= i <= |text| && ILike(text[i..], y) {
        var i :| 0 <= i <= |text| && ILike(text[i..], y);
        if i > 0 {
          assert text[1..][i - 1..] == text[i..];
        }
      }
    }
  }

  /**
   * The list and cost queries wrap the service-name filter as `'%' + name + '%'`:
   * for a name without wildcards that is a case-insensitive substring test.
   */
  lemma ContainsPattern(text: string, x: string)
    requires Literal(x)
    ensures ILike(text, "%" + x + "%") <==> ContainsIgnoringCase(text, x)
  {
    assert "%" + x + "%" == "%" + (x + "%");
    LeadingPercent(text, x + "%");
    if ILike(text, "%" + x + "%") {
      var i :| 0 <= i <= |text| && ILike(text[i..], x + "%");
      LiteralPrefix(text[i..], x);
      assert text[i..][..|x|] == text[i..i + |x|];
      assert OccursAt(text, x, i);
    }
    if ContainsIgnoringCase(text, x) {
      var i :| 0 <= i <= |text| - |x| && OccursAt(text, x, i);
      LiteralPrefix(text[i..], x);
      assert text[i..][..|x|] == text[i..i + |x|];
      assert ILike(text[i..], x + "%");
    }
  }

  /**
   * The filter value is not escaped: a '_' in it matches any character, so the
   * name filter "a_c" selects "abc", which does not contain "a_c".
   */
  lemma UnderscoreInFilterMatchesAnyCharacter()
    ensures ILike("abc", "%" + "a_c" + "%")
    ensures !ContainsIgnoringCase("abc", "a_c")
  {
    var p := "%" + "a_c" + "%";
    assert p == "%a_c%";
    assert ILike("", "");
    assert ILike("", "%");
    assert ILike("c", "c%");
    assert ILike("bc", "_c%");
    assert ILike("abc", "a_c%");
    assert ILike("abc", "%a_c%");
    forall i ensures !OccursAt("abc", "a_c", i) {
      if 0 <= i <= 0 {
        assert Fold("abc"[1]) != Fold("a_c"[1]);
      }
    }
  }
}
