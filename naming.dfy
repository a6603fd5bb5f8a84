/**
 * The names the action derives from a pull request or a branch: the
 * environment name used as the lookup key, and the trigger name.
 */
module Naming {
  import opened Wrappers

  /** The fields of a pull request that the names use. */
  datatype PullRequest = PullRequest(number: nat, title: string)

  predicate IsDigit(c: char) {
    '0' <= c <= '9'
  }

  function DigitChar(d: nat): (c: char)
    requires d < 10
    ensures IsDigit(c)
  {
    ('0' as int + d) as char
  }

  /** `${n}` for a natural number: its decimal digits, without leading zeros. */
  function Decimal(n: nat): (s: string)
    ensures |s| >= 1
    ensures forall k :: 0 <= k < |s| ==> IsDigit(s[k])
    ensures |s| > 1 ==> s[0] != '0'
  {
    if n < 10 then [DigitChar(n)] else Decimal(n / 10) + [DigitChar(n % 10)]
  }

  /** The number a string of decimal digits denotes. */
  function DecimalValue(s: string): nat
    requires forall k :: 0 <= k < |s| ==> IsDigit(s[k])
  {
    if s == [] then 0
    else
      assert IsDigit(s[|s| - 1]);
      DecimalValue(s[..|s| - 1]) * 10 + (s[|s| - 1] as int - '0' as int)
  }

  /** Reading the rendered digits back gives the number. */
  lemma {:induction false} DecimalRoundTrip(n: nat)
    ensures DecimalValue(Decimal(n)) == n
  {
    if n >= 10 {
      var s := Decimal(n);
      assert s[..|s| - 1] == Decimal(n / 10);
      DecimalRoundTrip(n / 10);
    }
  }

  lemma DecimalInjective(m: nat, n: nat)
    requires Decimal(m) == Decimal(n)
    ensures m == n
  {
    DecimalRoundTrip(m);
    DecimalRoundTrip(n);
  }

  /** The environment name: `[PR] #<number> - <title>` with a pull request, else `[Preview] <branch>`. */
  function EnvironmentName(branch: string, pr: Option<PullRequest>): (name: string)
    // bracketed, and a pull request's name tells itself from a branch's at its third character
    ensures |name| > 2 && name[0] == '[' && name[2] == (if pr.Some? then 'R' else 'r')
  {
    match pr
    case Some(p) => "[PR] #" + Decimal(p.number) + " - " + p.title
    case None => "[Preview] " + branch
  }

  /** The trigger name: `Deployments of PR #<number> - <title>`, else `Deployments of branch <branch>`. */
  function TriggerName(branch: string, pr: Option<PullRequest>): (name: string)
    // a pull request's name tells itself from a branch's right after `Deployments of `
    ensures |name| > 15 && name[0] == 'D' && name[15] == (if pr.Some? then 'P' else 'b')
  {
    "Deployments of " + match pr
      case Some(p) => "PR #" + Decimal(p.number) + " - " + p.title
      case None => "branch " + branch
  }

  /** Two calls target the same environment: the same pull request, or no pull request and the same branch. */
  predicate SameTarget(branch1: string, pr1: Option<PullRequest>, branch2: string, pr2: Option<PullRequest>) {
    pr1 == pr2 && (pr1.None? ==> branch1 == branch2)
  }

  /** The number is read off a `<number> - <title>` text unambiguously, and so is the title. */
  lemma NumberedTitleInjective(m: nat, t1: string, n: nat, t2: string)
    requires Decimal(m) + " - " + t1 == Decimal(n) + " - " + t2
    ensures m == n && t1 == t2
  {
    var a, b := Decimal(m), Decimal(n);
    var s := a + " - " + t1;
    if |a| < |b| {
      SeparatorAfterDigits(a, t1);
      assert false;
    }
    if |b| < |a| {
      SeparatorAfterDigits(b, t2);
      assert false;
    }
    assert a == s[..|a|];
    assert b == (b + " - " + t2)[..|b|];
    DecimalInjective(m, n);
    assert t1 == s[|a| + 3..];
    assert t2 == (b + " - " + t2)[|b| + 3..];
  }

  lemma SeparatorAfterDigits(a: string, t: string)
    ensures (a + " - " + t)[|a|] == ' '
  {
  }

  lemma PrefixedInjective(p: string, x: string, y: string)
    requires p + x == p + y
    ensures x == y
  {
    assert x == (p + x)[|p|..];
    assert y == (p + y)[|p|..];
  }

  /**
   * The environment name is a faithful lookup key: two calls get the same
   * name exactly when they target the same pull request, or the same branch
   * when there is no pull request.
   */
  lemma EnvironmentNameInjective(branch1: string, pr1: Option<PullRequest>, branch2: string, pr2: Option<PullRequest>)
    ensures EnvironmentName(branch1, pr1) == EnvironmentName(branch2, pr2)
        <==> SameTarget(branch1, pr1, branch2, pr2)
  {
    var n1, n2 := EnvironmentName(branch1, pr1), EnvironmentName(branch2, pr2);
    if n1 == n2 {
      if pr1.Some? && pr2.Some? {
        var p1, p2 := pr1.value, pr2.value;
        assert n1 == "[PR] #" + (Decimal(p1.number) + " - " + p1.title);
        assert n2 == "[PR] #" + (Decimal(p2.number) + " - " + p2.title);
        PrefixedInjective("[PR] #", Decimal(p1.number) + " - " + p1.title, Decimal(p2.number) + " - " + p2.title);
        NumberedTitleInjective(p1.number, p1.title, p2.number, p2.title);
      } else if pr1.None? && pr2.None? {
        PrefixedInjective("[Preview] ", branch1, branch2);
      } else {
        assert false;
      }
    }
  }

  /** The same holds for the trigger name. */
  lemma TriggerNameInjective(branch1: string, pr1: Option<PullRequest>, branch2: string, pr2: Option<PullRequest>)
    ensures TriggerName(branch1, pr1) == TriggerName(branch2, pr2)
        <==> SameTarget(branch1, pr1, branch2, pr2)
  {
    var n1, n2 := TriggerName(branch1, pr1), TriggerName(branch2, pr2);
    if n1 == n2 {
      var prefix := "Deployments of ";
      if pr1.Some? && pr2.Some? {
        var p1, p2 := pr1.value, pr2.value;
        assert n1 == (prefix + "PR #") + (Decimal(p1.number) + " - " + p1.title);
        assert n2 == (prefix + "PR #") + (Decimal(p2.number) + " - " + p2.title);
        PrefixedInjective(prefix + "PR #", Decimal(p1.number) + " - " + p1.title, Decimal(p2.number) + " - " + p2.title);
        NumberedTitleInjective(p1.number, p1.title, p2.number, p2.title);
      } else if pr1.None? && pr2.None? {
        assert n1 == (prefix + "branch ") + branch1;
        assert n2 == (prefix + "branch ") + branch2;
        PrefixedInjective(prefix + "branch ", branch1, branch2);
      } else {
        assert false;
      }
    }
  }

  /** An environment name and a trigger name never coincide. */
  lemma EnvironmentAndTriggerNamesDiffer(branch1: string, pr1: Option<PullRequest>, branch2: string, pr2: Option<PullRequest>)
    ensures EnvironmentName(branch1, pr1) != TriggerName(branch2, pr2)
  {
    assert EnvironmentName(branch1, pr1)[0] == '[';
    assert TriggerName(branch2, pr2)[0] == 'D';
  }

  lemma DecimalExample()
    ensures Decimal(42) == "42"
  {
    assert Decimal(4) == "4";
    assert DigitChar(2) == '2';
  }

  /** The names of pull request 42 "Fix bug". */
  lemma PullRequestNamesExample()
    ensures EnvironmentName("main", Some(PullRequest(42, "Fix bug"))) == "[PR] #42 - Fix bug"
    ensures TriggerName("main", Some(PullRequest(42, "Fix bug"))) == "Deployments of PR #42 - Fix bug"
  {
    DecimalExample();
  }

  /** The names of branch `feature-x`. */
  lemma BranchNamesExample()
    ensures EnvironmentName("feature-x", None) == "[Preview] feature-x"
    ensures TriggerName("feature-x", None) == "Deployments of branch feature-x"
  {
  }
}
