/** The e-mail format check shared by the Signup, Login and Reset screens,
    `/^[^\s@]+@[^\s@]+\.[^\s@]+$/`.

    `ValidEmail` is the check as a scan over the string (no white space,
    exactly one '@', something before it, and a '.' inside the part after it);
    `MatchesPattern` is the pattern read literally: the string splits into three
    non-empty runs without white space or '@', joined by '@' and '.'. The
    lemma `ValidEmailIffPattern` proves that the two agree on every string. */
module Email {
  import opened Js

  /** Number of occurrences of `c` in `s`. */
  function CountOf(s: string, c: char): (n: nat)
    ensures n <= |s|
  {
    if s == [] then 0 else (if s[0] == c then 1 else 0) + CountOf(s[1..], c)
  }

  /** `s.indexOf(c)`: the first position of `c`, or -1. */
  function IndexOf(s: string, c: char): (i: int)
    ensures -1 <= i < |s|
    ensures i >= 0 ==> s[i] == c && forall j :: 0 <= j < i ==> s[j] != c
    ensures i == -1 ==> forall j :: 0 <= j < |s| ==> s[j] != c
  {
    if s == [] then -1
    else if s[0] == c then 0
    else
      var k := IndexOf(s[1..], c);
      if k == -1 then -1 else k + 1
  }

  /** The domain has a '.' that is neither its first nor its last character. */
  predicate HasInnerDot(domain: string) {
    |domain| >= 3 && Contains(domain[1..|domain| - 1], Exactly('.'))
  }

  /** The format check: no white space, exactly one '@', a non-empty part
      before it, and an inner '.' in the part after it. */
  predicate ValidEmail(s: string) {
    && !Contains(s, Space)
    && CountOf(s, '@') == 1
    && var at := IndexOf(s, '@');
    && at > 0
    && HasInnerDot(s[at + 1..])
  }

  /** `[^\s@]+` */
  ghost predicate Run(x: string) {
    |x| > 0 && forall i :: 0 <= i < |x| ==> !IsWhitespace(x[i]) && x[i] != '@'
  }

  /** The pattern read literally: run '@' run '.' run, covering the string. */
  ghost predicate MatchesPattern(s: string) {
    exists at, dot ::
      && 0 < at && at + 1 < dot && dot + 1 < |s|
      && s[at] == '@' && s[dot] == '.'
      && Run(s[..at]) && Run(s[at + 1..dot]) && Run(s[dot + 1..])
  }

  lemma {:induction false} TwoOccurrences(s: string, c: char, i: int, j: int)
    requires 0 <= i < j < |s| && s[i] == c && s[j] == c
    ensures CountOf(s, c) >= 2
  {
    if i == 0 {
      assert s[1..][j - 1] == c;
      OneOccurrence(s[1..], c, j - 1);
    } else {
      assert s[1..][i - 1] == c && s[1..][j - 1] == c;
      TwoOccurrences(s[1..], c, i - 1, j - 1);
    }
  }

  lemma {:induction false} OneOccurrence(s: string, c: char, i: int)
    requires 0 <= i < |s| && s[i] == c
    ensures CountOf(s, c) >= 1
  {
    if i > 0 {
      assert s[1..][i - 1] == c;
      OneOccurrence(s[1..], c, i - 1);
    }
  }

  lemma {:induction false} OnlyOccurrence(s: string, c: char, i: int)
    requires 0 <= i < |s| && s[i] == c
    requires forall j :: 0 <= j < |s| && j != i ==> s[j] != c
    ensures CountOf(s, c) == 1
  {
    if i == 0 {
      NoOccurrence(s[1..], c);
    } else {
      assert s[1..][i - 1] == c;
      forall j | 0 <= j < |s[1..]| && j != i - 1 ensures s[1..][j] != c {
        assert s[1..][j] == s[j + 1];
      }
      OnlyOccurrence(s[1..], c, i - 1);
    }
  }

  lemma {:induction false} NoOccurrence(s: string, c: char)
    requires forall j :: 0 <= j < |s| ==> s[j] != c
    ensures CountOf(s, c) == 0
  {
    if s != [] {
      NoOccurrence(s[1..], c);
    }
  }

  lemma ValidToPattern(s: string)
    requires ValidEmail(s)
    ensures MatchesPattern(s)
  {
    var at := IndexOf(s, '@');
    var domain := s[at + 1..];
    var inner := domain[1..|domain| - 1];
    ContainsIff(inner, Exactly('.'));
    var k :| 0 <= k < |inner| && inner[k] == '.';
    var dot := at + 2 + k;
    assert s[dot] == '.';
    ContainsIff(s, Space);
    forall j | 0 <= j < |s| && j != at ensures s[j] != '@' {
      if s[j] == '@' {
        if j < at { } else { TwoOccurrences(s, '@', at, j); }
      }
    }
    assert Run(s[..at]);
    var mid, tail := s[at + 1..dot], s[dot + 1..];
    forall i | 0 <= i < |mid| ensures !IsWhitespace(mid[i]) && mid[i] != '@' {
      assert mid[i] == s[at + 1 + i];
    }
    forall i | 0 <= i < |tail| ensures !IsWhitespace(tail[i]) && tail[i] != '@' {
      assert tail[i] == s[dot + 1 + i];
    }
  }

  lemma PatternToValid(s: string)
    requires MatchesPattern(s)
    ensures ValidEmail(s)
  {
    var at, dot :|
      && 0 < at && at + 1 < dot && dot + 1 < |s|
      && s[at] == '@' && s[dot] == '.'
      && Run(s[..at]) && Run(s[at + 1..dot]) && Run(s[dot + 1..]);
    forall j | 0 <= j < |s| ensures !IsWhitespace(s[j]) && (j != at ==> s[j] != '@') {
      if j < at {
        assert s[j] == s[..at][j];
      } else if at < j < dot {
        assert s[j] == s[at + 1..dot][j - at - 1];
      } else if dot < j {
        assert s[j] == s[dot + 1..][j - dot - 1];
      }
    }
    ContainsIff(s, Space);
    OnlyOccurrence(s, '@', at);
    assert IndexOf(s, '@') == at;
    var domain := s[at + 1..];
    var inner := domain[1..|domain| - 1];
    assert inner[dot - at - 2] == '.';
    ContainsIff(inner, Exactly('.'));
  }

  /** The scan and the pattern accept the same strings. */
  lemma ValidEmailIffPattern(s: string)
    ensures ValidEmail(s) <==> MatchesPattern(s)
  {
    if ValidEmail(s) { ValidToPattern(s); }
    if MatchesPattern(s) { PatternToValid(s); }
  }

  /** The characterisation in plain terms: no white space, exactly one '@',
      a non-empty local part, and an inner '.' in the domain. */
  lemma ValidEmailMeans(s: string)
    ensures ValidEmail(s) <==>
      && (forall i :: 0 <= i < |s| ==> !IsWhitespace(s[i]))
      && CountOf(s, '@') == 1
      && (exists at :: 0 < at < |s| && s[at] == '@' && HasInnerDot(s[at + 1..]))
  {
    ContainsIff(s, Space);
    if CountOf(s, '@') == 1 {
      var first := IndexOf(s, '@');
      if first == -1 {
        NoOccurrence(s, '@');
      }
      forall at | 0 <= at < |s| && s[at] == '@' ensures at == first {
        if first < at { TwoOccurrences(s, '@', first, at); }
      }
    }
  }
}
