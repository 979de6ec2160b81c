/**
 * The string primitives the navigation code relies on: substring search,
 * first-occurrence replacement, `split(...)` + `last`, the CSS attribute
 * selectors `[attr$=v]` and `[attr*=v]` (Selectors Level 3, section 6.3.2)
 * and the regular expression `/admin.php\?page=wc-admin/`.
 */
module Strings {
  import opened Wrappers

  /** `sub` occurs in `s` starting at index `i`. */
  predicate OccursAt(s: string, sub: string, i: int) {
    0 <= i && i + |sub| <= |s| && s[i..i + |sub|] == sub
  }

  /** `[attr*=sub]`: the attribute value contains `sub` (an empty `sub` matches nothing). */
  predicate Contains(s: string, sub: string) {
    sub != [] && exists i :: 0 <= i <= |s| && OccursAt(s, sub, i)
  }

  /** `[attr$=suffix]`: the attribute value ends with `suffix` (an empty `suffix` matches nothing). */
  predicate EndsWith(s: string, suffix: string) {
    suffix != [] && |suffix| <= |s| && s[|s| - |suffix|..] == suffix
  }

  /** The first index at or after `from` where `sub` occurs (JavaScript's `indexOf(sub, from)`). */
  function IndexFrom(s: string, sub: string, from: nat): (r: Option<nat>)
    decreases |s| - from
    ensures r.Some? ==> from <= r.value && OccursAt(s, sub, r.value)
    ensures r.Some? ==> forall j :: from <= j < r.value ==> !OccursAt(s, sub, j)
    ensures r.None? ==> forall j :: from <= j ==> !OccursAt(s, sub, j)
  {
    if from + |sub| > |s| then None
    else if s[from..from + |sub|] == sub then Some(from)
    else IndexFrom(s, sub, from + 1)
  }

  /** `s.replace(sub, '')` with a string pattern: only the FIRST occurrence is removed. */
  function RemoveFirst(s: string, sub: string): (r: string)
    ensures IndexFrom(s, sub, 0).None? ==> r == s
    ensures IndexFrom(s, sub, 0).Some? ==>
      var i := IndexFrom(s, sub, 0).value; r == s[..i] + s[i + |sub|..]
  {
    match IndexFrom(s, sub, 0)
    case None => s
    case Some(i) => s[..i] + s[i + |sub|..]
  }

  /** `last(s.split(sep))`: the text after the last `sep`, or all of `s` when there is none. */
  function AfterLast(s: string, sep: char): (r: string)
    ensures sep !in r
    ensures |r| <= |s| && s[|s| - |r|..] == r
    ensures |r| < |s| ==> s[|s| - |r| - 1] == sep
  {
    if s == [] then []
    else if s[|s| - 1] == sep then []
    else AfterLast(s[..|s| - 1], sep) + [s[|s| - 1]]
  }

  /** A text containing `a + b` contains `a`. */
  lemma ContainsPrefixOf(s: string, a: string, b: string)
    requires a != [] && Contains(s, a + b)
    ensures Contains(s, a)
  {
    var i :| 0 <= i <= |s| && OccursAt(s, a + b, i);
    assert s[i..i + |a|] == s[i..i + |a + b|][..|a|];
    assert OccursAt(s, a, i);
  }

  /** A text ending with `a` contains `a`. */
  lemma EndsWithContains(s: string, a: string)
    requires EndsWith(s, a)
    ensures Contains(s, a)
  {
    assert OccursAt(s, a, |s| - |a|);
  }

  /** The characters a regular expression's `.` does not match (ECMAScript line terminators). */
  predicate IsLineTerminator(c: char) {
    c == '\n' || c == '\r' || c == '\U{2028}' || c == '\U{2029}'
  }

  /** The text of `/admin.php\?page=wc-admin/`; the character at `AnyCharAt` is the unescaped `.`. */
  const WcAdminPattern: string := "admin.php?page=wc-admin"
  const AnyCharAt: nat := 5

  /** The address and the query text that make up the pattern. */
  const AdminPage: string := "admin.php"
  const WcAdminQuery: string := "page=wc-admin"

  /** The pattern is the address, a `?`, then the query. */
  lemma PatternParts()
    ensures WcAdminPattern == AdminPage + "?" + WcAdminQuery
  {
  }

  /** The regular expression matches `s` at index `i`. */
  predicate WcAdminMatchesAt(s: string, i: int) {
    0 <= i && i + |WcAdminPattern| <= |s| &&
    forall j :: 0 <= j < |WcAdminPattern| ==>
      if j == AnyCharAt then !IsLineTerminator(s[i + j]) else s[i + j] == WcAdminPattern[j]
  }

  /** `/admin.php\?page=wc-admin/.test(s)`. */
  predicate IsWcAdminHref(s: string) {
    exists i :: 0 <= i <= |s| && WcAdminMatchesAt(s, i)
  }

  /** Every href holding the literal text `admin.php?page=wc-admin` passes the test. */
  lemma ContainsLiteralIsWcAdmin(s: string)
    requires Contains(s, WcAdminPattern)
    ensures IsWcAdminHref(s)
  {
    var i :| 0 <= i <= |s| && OccursAt(s, WcAdminPattern, i);
    assert i + |WcAdminPattern| <= |s|;
    forall j | 0 <= j < |WcAdminPattern|
      ensures s[i + j] == WcAdminPattern[j]
    {
      assert s[i..i + |WcAdminPattern|][j] == s[i + j];
    }
    assert WcAdminMatchesAt(s, i);
  }

  /** The unescaped `.` lets through hrefs that do not hold the literal text. */
  lemma DotMatchesAnyCharacter()
    ensures IsWcAdminHref("adminXphp?page=wc-admin")
    ensures !Contains("adminXphp?page=wc-admin", WcAdminPattern)
  {
    var s := "adminXphp?page=wc-admin";
    assert WcAdminMatchesAt(s, 0);
    forall i | 0 <= i <= |s| ensures !OccursAt(s, WcAdminPattern, i) {
      if i == 0 {
        assert s[0..|WcAdminPattern|][5] == 'X';
      }
    }
  }
}
