// The FluentValidation rules the validators use. Every validator runs with
// the default cascade mode, so each rule that fails adds its message and
// the messages come out in the order the rules are declared. Apart from
// NotEmpty and NotNull, a rule on a string lets a null value through.

module Fluent {
  import opened Wrappers
  import opened Text

  /**
   * A validator run with the default cascade mode: every rule in `rules` is
   * tried in declaration order and the broken ones are kept, in that order.
   */
  function Failed<R(!new)>(rules: seq<R>, breaks: R -> bool): (f: seq<R>)
    ensures forall r {:trigger r in f} :: r in f <==> r in rules && breaks(r)
    ensures |f| <= |rules|
    ensures (forall k :: 0 <= k < |rules| ==> breaks(rules[k])) ==> f == rules
  {
    if rules == [] then []
    else (if breaks(rules[0]) then [rules[0]] else []) + Failed(rules[1..], breaks)
  }

  /** `validationResult.Errors.Select(e => e.ErrorMessage)`: the message of each broken rule, in order. */
  function Messages<R>(f: seq<R>, message: R -> string): (errs: seq<string>)
    ensures |errs| == |f|
    ensures forall k :: 0 <= k < |f| ==> errs[k] == message(f[k])
  {
    if f == [] then [] else [message(f[0])] + Messages(f[1..], message)
  }

  /** `NotEmpty()` on a string: neither null nor empty nor white space only. */
  predicate NotEmptyText(s: Option<string>)
  {
    !IsNullOrWhiteSpace(s)
  }

  /** `MaximumLength(n)`. */
  predicate MaxLength(s: Option<string>, n: nat)
  {
    s.None? || |s.value| <= n
  }

  /** `MinimumLength(n)`. */
  predicate MinLength(s: Option<string>, n: nat)
  {
    s.None? || |s.value| >= n
  }

  /** `Length(n)`: exactly `n` characters. */
  predicate ExactLength(s: Option<string>, n: nat)
  {
    s.None? || |s.value| == n
  }

  /** How many times `c` occurs in `s`. */
  function Occurrences(s: string, c: char): (n: nat)
    ensures n <= |s|
  {
    if s == [] then 0 else (if s[0] == c then 1 else 0) + Occurrences(s[1..], c)
  }

  /**
   * `EmailAddress()` in its default (ASP.NET Core compatible) mode: exactly
   * one '@', neither the first nor the last character.
   */
  predicate IsEmailAddress(s: Option<string>)
  {
    s.None? || (|s.value| > 0 && Occurrences(s.value, '@') == 1 && s.value[0] != '@' && s.value[|s.value| - 1] != '@')
  }

  /** An address passes the e-mail rule exactly when it splits into a non-empty local part and a non-empty domain around its only '@'. */
  lemma EmailShape(local: string, domain: string)
    requires Occurrences(local, '@') == 0 && Occurrences(domain, '@') == 0
    ensures IsEmailAddress(Some(local + "@" + domain)) <==> local != [] && domain != []
  {
    var s := local + "@" + domain;
    OccurrencesConcat(local, "@" + domain, '@');
    OccurrencesConcat("@", domain, '@');
    assert s == local + ("@" + domain);
    Absent(local, '@');
    Absent(domain, '@');
    if local == [] {
      assert s[0] == '@';
    } else {
      assert s[0] == local[0];
    }
    if domain == [] {
      assert s[|s| - 1] == '@';
    } else {
      assert s[|s| - 1] == domain[|domain| - 1];
    }
  }

  /** A character that occurs nowhere is at no position. */
  lemma {:induction false} Absent(s: string, c: char)
    requires Occurrences(s, c) == 0
    ensures forall i :: 0 <= i < |s| ==> s[i] != c
  {
    if s != [] {
      Absent(s[1..], c);
      assert forall i :: 1 <= i < |s| ==> s[i] == s[1..][i - 1];
    }
  }

  lemma {:induction false} OccurrencesConcat(a: string, b: string, c: char)
    ensures Occurrences(a + b, c) == Occurrences(a, c) + Occurrences(b, c)
  {
    if a == [] {
      assert a + b == b;
    } else {
      assert (a + b)[0] == a[0];
      assert (a + b)[1..] == a[1..] + b;
      OccurrencesConcat(a[1..], b, c);
    }
  }
}
