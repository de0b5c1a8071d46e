/** The e-mail check that the user editor and the federation form both run,
    `^[^\s@]+@[^\s@]+\.[^\s@]+$`, written as a direct string check, together with the
    regular expression's own meaning as an independent reference. */
module Email {
  import opened Js

  /** A character of the class `[^\s@]`. */
  predicate Plain(c: char) {
    !IsSpace(c) && c != '@'
  }

  /** Every character of `s` is in `[^\s@]`. */
  predicate AllPlain(s: string) {
    forall i :: 0 <= i < |s| ==> Plain(s[i])
  }

  /** The domain part `A.B`: no whitespace and no `@`, and a dot with something on both sides. */
  predicate DomainOk(d: string) {
    AllPlain(d) && exists j :: 0 < j < |d| - 1 && d[j] == '.'
  }

  /** The hand-written check: a non-empty local part up to the first `@`, then a valid domain. */
  predicate IsEmail(s: string) {
    match IndexOf(s, '@')
    case None => false
    case Some(k) => k > 0 && AllPlain(s[..k]) && DomainOk(s[k + 1..])
  }

  /** `s` splits as `local@a.b` at the `@` in position `i` and the `.` in position `j`,
      with all three parts non-empty and made of `[^\s@]`. */
  ghost predicate RegexSplit(s: string, i: int, j: int) {
    && 0 < i && i + 1 < j && j + 1 < |s|
    && s[i] == '@' && s[j] == '.'
    && AllPlain(s[..i]) && AllPlain(s[i + 1..j]) && AllPlain(s[j + 1..])
  }

  /** What `^[^\s@]+@[^\s@]+\.[^\s@]+$` matches. */
  ghost predicate MatchesRegex(s: string) {
    exists i, j :: RegexSplit(s, i, j)
  }

  /** Every string the hand-written check accepts matches the regular expression. */
  lemma IsEmailMatches(s: string)
    requires IsEmail(s)
    ensures MatchesRegex(s)
  {
    var k := IndexOf(s, '@').value;
    var d := s[k + 1..];
    var j' :| 0 < j' < |d| - 1 && d[j'] == '.';
    var j := k + 1 + j';
    assert s[k + 1..j] == d[..j'];
    assert s[j + 1..] == d[j' + 1..];
    assert RegexSplit(s, k, j);
  }

  /** Every string the regular expression matches passes the hand-written check. */
  lemma MatchesIsEmail(s: string)
    requires MatchesRegex(s)
    ensures IsEmail(s)
  {
    var i, j :| RegexSplit(s, i, j);
    assert forall k :: 0 <= k < i ==> s[k] == s[..i][k];
    assert IndexOf(s, '@') == Some(i);
    var d := s[i + 1..];
    assert d[j - i - 1] == '.';
    forall k | 0 <= k < |d| ensures Plain(d[k]) {
      if k < j - i - 1 {
        assert d[k] == s[i + 1..j][k];
      } else if k > j - i - 1 {
        assert d[k] == s[j + 1..][k - (j - i)];
      }
    }
    assert DomainOk(d);
  }

  /** The hand-written check accepts exactly the strings the regular expression matches. */
  lemma IsEmailIffRegex(s: string)
    ensures IsEmail(s) <==> MatchesRegex(s)
  {
    if IsEmail(s) {
      IsEmailMatches(s);
    }
    if MatchesRegex(s) {
      MatchesIsEmail(s);
    }
  }

  /** Every `local@a.b` built from non-empty plain parts passes. */
  lemma IsEmailOf(local: string, a: string, b: string)
    requires local != [] && a != [] && b != []
    requires AllPlain(local) && AllPlain(a) && AllPlain(b)
    ensures IsEmail(local + "@" + a + "." + b)
  {
    var s := local + "@" + a + "." + b;
    var i, j := |local|, |local| + 1 + |a|;
    assert s[..i] == local;
    assert s[i + 1..j] == a;
    assert s[j + 1..] == b;
    assert RegexSplit(s, i, j);
    IsEmailIffRegex(s);
  }

  /** `String(undefined)`, what the check sees for a missing field, is rejected. */
  lemma UndefinedIsNotEmail()
    ensures !IsEmail(ToStr(Undefined))
  {
    IndexOfAbsent("undefined", '@');
  }

  /** A domain without a dot with text on both sides is rejected, and so is a second `@`. */
  lemma DomainNeedsDot()
    ensures !IsEmail("a@b") && !IsEmail("a@b.") && !IsEmail("a@.b") && !IsEmail("a@b@c.d")
  {
    assert IndexOf("a@b", '@') == Some(1);
    assert IndexOf("a@b.", '@') == Some(1);
    assert IndexOf("a@.b", '@') == Some(1);
    assert IndexOf("a@b@c.d", '@') == Some(1);
    assert "a@b@c.d"[2..][1] == '@';
  }
}
