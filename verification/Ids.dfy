/** The store writes structured identifiers as text. The text determines the parts,
    so the tables may be keyed by the parts themselves. */
module Ids {
  import opened Domain

  function Digit(n: nat): char
    requires n < 10
  {
    "0123456789"[n]
  }

  function Decimal(n: nat): string {
    if n < 10 then [Digit(n)] else Decimal(n / 10) + [Digit(n % 10)]
  }

  lemma {:induction false} DecimalHasNoDash(n: nat)
    ensures '-' !in Decimal(n)
  {
    if n >= 10 {
      DecimalHasNoDash(n / 10);
    }
  }

  lemma {:induction false} DecimalInjective(m: nat, n: nat)
    requires Decimal(m) == Decimal(n)
    ensures m == n
  {
    if m < 10 || n < 10 {
      assert |Decimal(m)| == |Decimal(n)|;
      LongDecimal(m);
      LongDecimal(n);
      assert Decimal(m)[0] == Decimal(n)[0];
    } else {
      var x, y := Decimal(m), Decimal(n);
      assert x[..|x| - 1] == Decimal(m / 10) && y[..|y| - 1] == Decimal(n / 10);
      DecimalInjective(m / 10, n / 10);
      assert x[|x| - 1] == Digit(m % 10) && y[|y| - 1] == Digit(n % 10);
    }
  }

  lemma LongDecimal(n: nat)
    ensures |Decimal(n)| >= 1 && (n >= 10 ==> |Decimal(n)| >= 2)
  {
    if n >= 10 {
      LongDecimal(n / 10);
    }
  }

  // Where the last dash of `s` is; -1 when it has none.
  function LastDashAt(s: string): int {
    if s == [] then -1 else if s[|s| - 1] == '-' then |s| - 1 else LastDashAt(s[..|s| - 1])
  }

  lemma {:induction false} LastDashFound(a: string, x: string)
    requires '-' !in x
    ensures LastDashAt(a + "-" + x) == |a|
  {
    var whole := a + "-" + x;
    if x == [] {
      assert whole[|a|] == '-';
    } else {
      LastDashFound(a, x[..|x| - 1]);
      assert whole[..|whole| - 1] == a + "-" + x[..|x| - 1];
      assert whole[|whole| - 1] == x[|x| - 1];
    }
  }

  // The text before the last dash, and the text after it.
  lemma LastDash(a: string, x: string, b: string, y: string)
    requires a + "-" + x == b + "-" + y
    requires '-' !in x && '-' !in y
    ensures a == b && x == y
  {
    LastDashFound(a, x);
    LastDashFound(b, y);
    var whole := a + "-" + x;
    assert a == whole[..|a|] && b == whole[..|b|];
    assert x == whole[|a| + 1..] && y == whole[|b| + 1..];
  }

  function AttemptName(job: string, number: nat): string {
    job + "-" + Decimal(number)
  }

  /** An attempt's identifier determines its job and its number. */
  lemma AttemptNameInjective(j: string, m: nat, k: string, n: nat)
    requires AttemptName(j, m) == AttemptName(k, n)
    ensures j == k && m == n
  {
    DecimalHasNoDash(m);
    DecimalHasNoDash(n);
    LastDash(j, Decimal(m), k, Decimal(n));
    DecimalInjective(m, n);
  }

  function RebuildPrefix(session: string, epoch: nat): string {
    "rebuild-" + session + "-" + Decimal(epoch) + "-"
  }

  function RebuildName(session: string, epoch: nat, step: nat): string {
    RebuildPrefix(session, epoch) + Decimal(step)
  }

  /** A rebuild job's identifier determines its session, epoch and step. */
  lemma RebuildNameInjective(s: string, e: nat, i: nat, t: string, f: nat, k: nat)
    requires RebuildName(s, e, i) == RebuildName(t, f, k)
    ensures s == t && e == f && i == k
  {
    DecimalHasNoDash(e);
    DecimalHasNoDash(f);
    DecimalHasNoDash(i);
    DecimalHasNoDash(k);
    var x, y := "rebuild-" + s + "-" + Decimal(e), "rebuild-" + t + "-" + Decimal(f);
    assert RebuildName(s, e, i) == x + "-" + Decimal(i) && RebuildName(t, f, k) == y + "-" + Decimal(k);
    LastDash(x, Decimal(i), y, Decimal(k));
    LastDash("rebuild-" + s, Decimal(e), "rebuild-" + t, Decimal(f));
    assert s == ("rebuild-" + s)[8..] && t == ("rebuild-" + t)[8..];
    DecimalInjective(i, k);
    DecimalInjective(e, f);
  }

  /** Among the rebuild jobs of one session, the prefix test selects exactly an epoch. */
  lemma RebuildPrefixSelects(session: string, epoch: nat, e: nat, step: nat)
    ensures RebuildPrefix(session, epoch) <= RebuildName(session, e, step) <==> epoch == e
  {
    var name := RebuildName(session, e, step);
    var prefix := RebuildPrefix(session, epoch);
    if prefix <= name {
      var head := "rebuild-" + session + "-";
      var rest := name[|prefix|..];
      assert name == head + (Decimal(e) + "-" + Decimal(step));
      assert name == prefix + rest == head + (Decimal(epoch) + "-" + rest);
      assert name[|head|..] == Decimal(e) + "-" + Decimal(step);
      assert name[|head|..] == Decimal(epoch) + "-" + rest;
      DecimalHasNoDash(e);
      DecimalHasNoDash(epoch);
      FirstMark('-', Decimal(e), Decimal(step), Decimal(epoch), rest);
      DecimalInjective(e, epoch);
    }
  }

  /** Identifiers that the service mints for submitted jobs are never taken for rebuild steps. */
  lemma MintedNamesAreNotRebuilds(suffix: string, session: string, epoch: nat)
    ensures !(RebuildPrefix(session, epoch) <= "job_" + suffix)
  {
    assert RebuildPrefix(session, epoch)[0] == 'r' && ("job_" + suffix)[0] == 'j';
  }

  // Keys

  lemma {:induction false} DecimalHasNoColon(n: nat)
    ensures ':' !in Decimal(n)
  {
    if n >= 10 {
      DecimalHasNoColon(n / 10);
    }
  }

  // Where the first `c` of `s` is; its length when it has none.
  function FirstMarkAt(c: char, s: string): nat {
    if s == [] || s[0] == c then 0 else 1 + FirstMarkAt(c, s[1..])
  }

  lemma {:induction false} FirstMarkFound(c: char, x: string, u: string)
    requires c !in x
    ensures FirstMarkAt(c, x + [c] + u) == |x|
  {
    if x != [] {
      FirstMarkFound(c, x[1..], u);
      assert (x + [c] + u)[1..] == x[1..] + [c] + u;
    }
  }

  // Two words without `c`, each followed by `c`, at the same place of one text.
  lemma FirstMark(c: char, x: string, u: string, y: string, v: string)
    requires x + [c] + u == y + [c] + v
    requires c !in x && c !in y
    ensures x == y && u == v
  {
    FirstMarkFound(c, x, u);
    FirstMarkFound(c, y, v);
    var whole := x + [c] + u;
    assert x == whole[..|x|] && y == whole[..|y|];
    assert u == whole[|x| + 1..] && v == whole[|y| + 1..];
  }

  function RebuildKeyText(session: string, epoch: nat, step: string): string {
    "rebuild:" + session + ":" + Decimal(epoch) + ":" + step
  }

  /** The key of a rebuild step determines session, epoch and step key, for sessions whose
      names hold no colon; the service mints none that does. */
  lemma RebuildKeyInjective(s: string, e: nat, k: string, t: string, f: nat, l: string)
    requires RebuildKeyText(s, e, k) == RebuildKeyText(t, f, l) && ':' !in s && ':' !in t
    ensures s == t && e == f && k == l
  {
    var x, y := Decimal(e) + ":" + k, Decimal(f) + ":" + l;
    assert RebuildKeyText(s, e, k)[8..] == s + [':'] + x && RebuildKeyText(t, f, l)[8..] == t + [':'] + y;
    FirstMark(':', s, x, t, y);
    DecimalHasNoColon(e);
    DecimalHasNoColon(f);
    FirstMark(':', Decimal(e), k, Decimal(f), l);
    DecimalInjective(e, f);
  }

  // Jobs

  function NameOf(j: JobID): string {
    match j
    case Client(n) => "job_" + Decimal(n)
    case Rebuild(s, e, i) => RebuildName(Decimal(s), e, i)
  }

  lemma NameDeterminesJob(j: JobID, k: JobID)
    requires NameOf(j) == NameOf(k)
    ensures j == k
  {
    assert NameOf(j)[0] == (if j.Client? then 'j' else 'r') && NameOf(k)[0] == (if k.Client? then 'j' else 'r');
    if j.Client? {
      assert Decimal(j.n) == NameOf(j)[4..] && Decimal(k.n) == NameOf(k)[4..];
      DecimalInjective(j.n, k.n);
    } else {
      RebuildNameInjective(Decimal(j.session), j.epoch, j.step, Decimal(k.session), k.epoch, k.step);
      DecimalInjective(j.session, k.session);
    }
  }

  /** The prefix test of a claim, on names, tells exactly the rebuild steps of this epoch of
      this session from all other jobs. */
  lemma PrefixMeansStep(s: SessionID, epoch: nat, j: JobID)
    ensures RebuildPrefix(Decimal(s), epoch) <= NameOf(j) <==> j.Rebuild? && j.session == s && j.epoch == epoch
  {
    match j
    case Client(n) => MintedNamesAreNotRebuilds(Decimal(n), Decimal(s), epoch);
    case Rebuild(t, e, i) =>
      if RebuildPrefix(Decimal(s), epoch) <= NameOf(j) {
        SameSession(s, epoch, t, e, i);
      }
      RebuildPrefixSelects(Decimal(t), epoch, e, i);
  }

  // What follows the first eight characters.
  lemma AfterHead(a: string, x: string, rest: string)
    ensures ("rebuild-" + a + "-" + x + "-" + rest)[8..] == a + ['-'] + (x + "-" + rest)
  {
    var name := "rebuild-" + a + "-" + x + "-" + rest;
    assert name == "rebuild-" + (a + ['-'] + (x + "-" + rest));
  }

  lemma SameSession(s: nat, epoch: nat, t: nat, e: nat, i: nat)
    requires RebuildPrefix(Decimal(s), epoch) <= RebuildName(Decimal(t), e, i)
    ensures s == t
  {
    DecimalHasNoDash(s);
    DecimalHasNoDash(t);
    SamePrefix(Decimal(s), Decimal(epoch), Decimal(t), Decimal(e), Decimal(i));
    DecimalInjective(s, t);
  }

  lemma SamePrefix(a: string, x: string, b: string, y: string, v: string)
    requires "rebuild-" + a + "-" + x + "-" <= "rebuild-" + b + "-" + y + "-" + v
    requires '-' !in a && '-' !in b
    ensures a == b
  {
    var prefix, name := "rebuild-" + a + "-" + x + "-", "rebuild-" + b + "-" + y + "-" + v;
    assert name == prefix + name[|prefix|..];
    SameWords(a, x, name[|prefix|..], b, y, v, name);
  }

  lemma SameWords(a: string, x: string, u: string, b: string, y: string, v: string, name: string)
    requires name == "rebuild-" + a + "-" + x + "-" + u && name == "rebuild-" + b + "-" + y + "-" + v
    requires '-' !in a && '-' !in b
    ensures a == b
  {
    AfterHead(a, x, u);
    AfterHead(b, y, v);
    FirstMark('-', a, x + "-" + u, b, y + "-" + v);
  }
}
