/** The IPv4 step of `getHttpRequestObject` in lib/index.js: the client address
    is matched against `/([0-9]{1,3}\.[0-9]{1,3}\.[0-9]{1,3}\.[0-9]{1,3})/`
    and, on a match, replaced by the matched text. The regular expression is
    modelled as a scanner that finds the leftmost match, each `[0-9]{1,3}`
    taking as many digits as it can. */
module Ipv4 {
  import opened Text
  import opened JsValues

  function Min(a: nat, b: nat): nat {
    if a <= b then a else b
  }

  /** The number of consecutive digits of `s` from position `i`. */
  function DigitRun(s: string, i: nat): (k: nat)
    requires i <= |s|
    ensures i + k <= |s|
    decreases |s| - i
  {
    if i < |s| && IsDigit(s[i]) then 1 + DigitRun(s, i + 1) else 0
  }

  lemma {:induction false} RunIsDigits(s: string, i: nat, j: nat)
    requires i <= j && j <= |s| && j < i + DigitRun(s, i)
    ensures IsDigit(s[j])
    decreases j - i
  {
    if j > i {
      RunIsDigits(s, i + 1, j);
    }
  }

  lemma {:induction false} RunStops(s: string, i: nat)
    requires i <= |s|
    ensures i + DigitRun(s, i) < |s| ==> !IsDigit(s[i + DigitRun(s, i)])
    decreases |s| - i
  {
    if i < |s| && IsDigit(s[i]) {
      RunStops(s, i + 1);
    }
  }

  /** `[0-9]{1,3}\.` at `p`: the position just after the dot. A group that is
      followed by a dot must take every digit of the run, so the run decides. */
  function GroupDot(s: string, p: nat): (r: Option<nat>)
    requires p <= |s|
    ensures r.Some? ==> p < r.value <= |s|
  {
    var k := DigitRun(s, p);
    if 1 <= k <= 3 && p + k < |s| && s[p + k] == '.' then Some(p + k + 1) else None
  }

  /** The length of the match that starts at `i`, if one does. */
  function QuadAt(s: string, i: nat): (r: Option<nat>)
    requires i <= |s|
    ensures r.Some? ==> i + r.value <= |s|
  {
    match GroupDot(s, i)
    case None => None
    case Some(p2) =>
      match GroupDot(s, p2)
      case None => None
      case Some(p3) =>
        match GroupDot(s, p3)
        case None => None
        case Some(p4) =>
          var k := DigitRun(s, p4);
          if k == 0 then None else Some(p4 + Min(k, 3) - i)
  }

  /** The leftmost match at or after `from`, as (start, length). */
  function FirstQuad(s: string, from: nat): (r: Option<(nat, nat)>)
    requires from <= |s|
    ensures r.Some? ==> from <= r.value.0 <= |s| && QuadAt(s, r.value.0) == Some(r.value.1)
    ensures r.Some? ==> forall j :: from <= j < r.value.0 ==> QuadAt(s, j).None?
    ensures r.None? ==> forall j :: from <= j <= |s| ==> QuadAt(s, j).None?
    decreases |s| - from
  {
    match QuadAt(s, from)
    case Some(n) => Some((from, n))
    case None => if from == |s| then None else FirstQuad(s, from + 1)
  }

  /** `(ip || '').match(re)` followed by `ip = match[1]` when it matched. */
  function ReduceToIpv4(s: string): string {
    var m := FirstQuad(s, 0);
    if m.Some? then s[m.value.0..m.value.0 + m.value.1] else s
  }

  /** The IPv4 step on the `remoteIp` field value: `undefined` stays. */
  function ReduceRemoteIp(v: Value): Value {
    match v
    case Str(s) => Str(ReduceToIpv4(s))
    case _ => v
  }

  // ---- the regular expression, stated declaratively ----

  ghost predicate Group(s: string, p: nat, n: nat) {
    1 <= n <= 3 && p + n <= |s| && forall j :: p <= j < p + n ==> IsDigit(s[j])
  }

  /** The pattern matches at `i` with groups of `a`, `b`, `c` and `d` digits. */
  ghost predicate MatchAt(s: string, i: nat, a: nat, b: nat, c: nat, d: nat) {
    var p2 := i + a + 1;
    var p3 := p2 + b + 1;
    var p4 := p3 + c + 1;
    && p4 + d <= |s|
    && Group(s, i, a) && s[i + a] == '.'
    && Group(s, p2, b) && s[p2 + b] == '.'
    && Group(s, p3, c) && s[p3 + c] == '.'
    && Group(s, p4, d)
  }

  /** The last group took as many digits as it could. */
  ghost predicate Greedy(s: string, end: nat, d: nat) {
    d == 3 || end >= |s| || !IsDigit(s[end])
  }

  /** The pattern matches the `n` characters of `s` from `i`, the last group
      taking as many digits as it can. */
  ghost predicate GreedyMatch(s: string, i: nat, n: nat) {
    exists a: nat, b: nat, c: nat, d: nat :: MatchAt(s, i, a, b, c, d) && Greedy(s, i + n, d)
                                             && n == a + b + c + d + 3
  }

  lemma {:induction false} RunCoversDigits(s: string, p: nat, n: nat)
    requires p + n <= |s|
    requires forall j :: p <= j < p + n ==> IsDigit(s[j])
    ensures DigitRun(s, p) >= n
    decreases n
  {
    if n > 0 {
      RunCoversDigits(s, p + 1, n - 1);
    }
  }

  lemma RunEndsAtDot(s: string, p: nat, n: nat)
    requires Group(s, p, n) && p + n < |s| && s[p + n] == '.'
    ensures DigitRun(s, p) == n
  {
    RunCoversDigits(s, p, n);
    if DigitRun(s, p) > n {
      RunIsDigits(s, p, p + n);
    }
  }

  lemma RunIsGroup(s: string, p: nat, n: nat)
    requires p <= |s| && 1 <= n <= 3 && n <= DigitRun(s, p)
    ensures Group(s, p, n)
  {
    forall j | p <= j < p + n
      ensures IsDigit(s[j])
    {
      RunIsDigits(s, p, j);
    }
  }

  /** Every match of the pattern is found by `QuadAt`. */
  lemma MatchFound(s: string, i: nat, a: nat, b: nat, c: nat, d: nat)
    requires MatchAt(s, i, a, b, c, d)
    ensures QuadAt(s, i).Some?
  {
    var p2 := i + a + 1;
    var p3 := p2 + b + 1;
    var p4 := p3 + c + 1;
    RunEndsAtDot(s, i, a);
    RunEndsAtDot(s, p2, b);
    RunEndsAtDot(s, p3, c);
    RunCoversDigits(s, p4, d);
  }

  /** What `QuadAt` finds is a greedy match of the pattern. */
  lemma QuadIsMatch(s: string, i: nat) returns (a: nat, b: nat, c: nat, d: nat)
    requires i <= |s| && QuadAt(s, i).Some?
    ensures MatchAt(s, i, a, b, c, d) && QuadAt(s, i).value == a + b + c + d + 3
    ensures Greedy(s, i + a + b + c + d + 3, d)
  {
    a := DigitRun(s, i);
    var p2 := i + a + 1;
    b := DigitRun(s, p2);
    var p3 := p2 + b + 1;
    c := DigitRun(s, p3);
    var p4 := p3 + c + 1;
    d := Min(DigitRun(s, p4), 3);
    RunIsGroup(s, i, a);
    RunIsGroup(s, p2, b);
    RunIsGroup(s, p3, c);
    RunIsGroup(s, p4, d);
    RunStops(s, p4);
  }

  /** `FirstQuad` is determined by the first position where `QuadAt` succeeds. */
  lemma FirstQuadAt(s: string, i: nat)
    requires i <= |s| && QuadAt(s, i).Some?
    requires forall j :: 0 <= j < i ==> QuadAt(s, j).None?
    ensures FirstQuad(s, 0) == Some((i, QuadAt(s, i).value))
  {
  }

  lemma LeftmostMatch(s: string, i: nat, n: nat)
    requires i + n <= |s| && QuadAt(s, i) == Some(n)
    ensures GreedyMatch(s, i, n)
  {
    var a, b, c, d := QuadIsMatch(s, i);
    assert MatchAt(s, i, a, b, c, d) && Greedy(s, i + n, d) && n == a + b + c + d + 3;
  }

  /** No match of the pattern starts before the one the search reports. */
  lemma MatchNotBeforeFirst(s: string, j: nat, a: nat, b: nat, c: nat, d: nat)
    requires MatchAt(s, j, a, b, c, d)
    ensures FirstQuad(s, 0).Some? && FirstQuad(s, 0).value.0 <= j
  {
    MatchFound(s, j, a, b, c, d);
  }

  /** Every match of the pattern starts at or after the reported one, and
      there is none when nothing is reported. */
  lemma NoEarlierMatch(s: string)
    ensures FirstQuad(s, 0).Some? ==>
      forall j: nat, a: nat, b: nat, c: nat, d: nat :: j < FirstQuad(s, 0).value.0 ==> !MatchAt(s, j, a, b, c, d)
    ensures FirstQuad(s, 0).None? ==> forall j: nat, a: nat, b: nat, c: nat, d: nat :: !MatchAt(s, j, a, b, c, d)
  {
    forall j: nat, a: nat, b: nat, c: nat, d: nat | MatchAt(s, j, a, b, c, d)
      ensures FirstQuad(s, 0).Some? && FirstQuad(s, 0).value.0 <= j
    {
      MatchNotBeforeFirst(s, j, a, b, c, d);
    }
  }

  /** The reported match is a greedy match, and it is what the step keeps. */
  lemma ReportedMatch(s: string)
    requires FirstQuad(s, 0).Some?
    ensures var i := FirstQuad(s, 0).value.0;
      var n := FirstQuad(s, 0).value.1;
      && GreedyMatch(s, i, n)
      && ReduceToIpv4(s) == s[i..i + n]
  {
    var m := FirstQuad(s, 0);
    LeftmostMatch(s, m.value.0, m.value.1);
  }

  /** The IPv4 step keeps the leftmost greedy match of the pattern, or leaves
      the address alone when the pattern matches nowhere. */
  lemma ReduceToIpv4Correct(s: string)
    ensures FirstQuad(s, 0).Some? ==>
      var i := FirstQuad(s, 0).value.0;
      var n := FirstQuad(s, 0).value.1;
      && GreedyMatch(s, i, n)
      && ReduceToIpv4(s) == s[i..i + n]
      && forall j: nat, a: nat, b: nat, c: nat, d: nat :: j < i ==> !MatchAt(s, j, a, b, c, d)
    ensures FirstQuad(s, 0).None? ==>
      ReduceToIpv4(s) == s && forall j: nat, a: nat, b: nat, c: nat, d: nat :: !MatchAt(s, j, a, b, c, d)
  {
    NoEarlierMatch(s);
    if FirstQuad(s, 0).Some? {
      ReportedMatch(s);
    }
  }

  const MappedExample := "::ffff:192.168.1.5"

  lemma MappedExampleGroups()
    ensures GroupDot(MappedExample, 7) == Some(11)
    ensures GroupDot(MappedExample, 11) == Some(15)
    ensures GroupDot(MappedExample, 15) == Some(17)
    ensures DigitRun(MappedExample, 17) == 1
  {
    var s := MappedExample;
    assert s[16] == '.' && DigitRun(s, 17) == 1;
    assert s[14] == '.' && DigitRun(s, 15) == 1;
    assert s[10] == '.' && DigitRun(s, 11) == 3;
    assert DigitRun(s, 7) == 3;
  }

  lemma MappedExamplePrefix(j: nat)
    requires j < 7
    ensures QuadAt(MappedExample, j).None?
  {
    assert !IsDigit(MappedExample[j]);
  }

  /** The match in the example starts after the prefix and is 11 long. */
  lemma MappedExampleQuad()
    ensures QuadAt(MappedExample, 7) == Some(11)
    ensures forall j :: 0 <= j < 7 ==> QuadAt(MappedExample, j).None?
  {
    MappedExampleGroups();
    forall j | 0 <= j < 7
      ensures QuadAt(MappedExample, j).None?
    {
      MappedExamplePrefix(j);
    }
  }

  /** The step keeps the first match, wherever it is. */
  lemma ReduceAt(s: string, i: nat, n: nat)
    requires i <= |s| && QuadAt(s, i) == Some(n)
    requires forall j :: 0 <= j < i ==> QuadAt(s, j).None?
    ensures i + n <= |s| && ReduceToIpv4(s) == s[i..i + n]
  {
    FirstQuadAt(s, i);
  }

  /** The address part of the example. */
  lemma SliceOfExample()
    ensures MappedExample[7..18] == "192.168.1.5"
  {
  }

  /** An IPv4-mapped IPv6 address is reduced to its IPv4 part. */
  lemma MappedAddressReduced()
    ensures ReduceToIpv4(MappedExample) == "192.168.1.5"
  {
    MappedExampleQuad();
    ReduceAt(MappedExample, 7, 11);
    assert MappedExample[7..18] == "192.168.1.5" by {
      SliceOfExample();
    }
  }

  /** A plain IPv4 address is kept as it is. */
  lemma PlainAddressKept()
    ensures ReduceToIpv4("203.0.113.7") == "203.0.113.7"
  {
    var s := "203.0.113.7";
    assert DigitRun(s, 10) == 1;
    assert DigitRun(s, 8) == 1 && DigitRun(s, 6) == 3;
    assert DigitRun(s, 4) == 1 && DigitRun(s, 2) == 1 && DigitRun(s, 0) == 3;
    assert QuadAt(s, 0) == Some(11);
  }
}
