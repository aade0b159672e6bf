/** The six log levels and `compareLevels`, which ranks a level name by its
    position in `allLevels` (-1 for a name that is not there). */
module Levels {
  import opened Text

  datatype Level = Trace | Debug | Info | Warn | Error | Fatal

  const AllLevels: seq<string> := ["trace", "debug", "info", "warn", "error", "fatal"]

  function Rank(l: Level): nat {
    match l
    case Trace => 0
    case Debug => 1
    case Info => 2
    case Warn => 3
    case Error => 4
    case Fatal => 5
  }

  /** The lower-case name under which the logger exposes the level. */
  function Name(l: Level): (s: string)
    ensures s == AllLevels[Rank(l)]
  {
    match l
    case Trace => "trace"
    case Debug => "debug"
    case Info => "info"
    case Warn => "warn"
    case Error => "error"
    case Fatal => "fatal"
  }

  /** The severity written into the record: the level name upper-cased. */
  function Severity(l: Level): string {
    ToUpper(Name(l))
  }

  /** `xs.indexOf(s)`: the first position of `s`, or -1. */
  function IndexIn(xs: seq<string>, s: string): (i: int)
    ensures -1 <= i < |xs|
    ensures i >= 0 ==> xs[i] == s && forall j :: 0 <= j < i ==> xs[j] != s
    ensures i == -1 <==> s !in xs
  {
    if |xs| == 0 then -1
    else if xs[0] == s then 0
    else
      var j := IndexIn(xs[1..], s);
      if j == -1 then -1 else j + 1
  }

  function IndexOf(s: string): int {
    IndexIn(AllLevels, s)
  }

  /** `compareLevels(a, b)`. */
  function CompareLevels(a: string, b: string): int {
    IndexOf(a) - IndexOf(b)
  }

  /** A level method at `l` goes ahead unless `compareLevels(l, threshold) < 0`. */
  predicate Passes(l: Level, threshold: string) {
    CompareLevels(Name(l), threshold) >= 0
  }

  lemma IndexOfName(l: Level)
    ensures IndexOf(Name(l)) == Rank(l)
  {
    assert AllLevels[Rank(l)] == Name(l);
    assert forall i, j :: 0 <= i < j < |AllLevels| ==> AllLevels[i] != AllLevels[j];
  }

  /** Threshold law: a call at `l` passes against a known level `t` exactly
      when its rank is at least `t`'s, and passes against every unknown level. */
  lemma PassesIff(l: Level, t: string)
    ensures t !in AllLevels ==> Passes(l, t)
    ensures forall m: Level :: t == Name(m) ==> (Passes(l, t) <==> Rank(l) >= Rank(m))
  {
    IndexOfName(l);
    forall m: Level | t == Name(m)
      ensures Passes(l, t) <==> Rank(l) >= Rank(m)
    {
      IndexOfName(m);
    }
  }

  /** A severity starts with an upper-case letter. */
  lemma SeverityStartsUpper(l: Level)
    ensures |Severity(l)| > 0 && 'A' <= Severity(l)[0] <= 'Z'
  {
  }

  /** Every level name starts with a lower-case letter. */
  lemma UpperNotALevel(s: string)
    requires |s| > 0 && 'A' <= s[0] <= 'Z'
    ensures s !in AllLevels
  {
    forall i | 0 <= i < |AllLevels|
      ensures AllLevels[i] != s
    {
      assert 'a' <= AllLevels[i][0] <= 'z';
    }
  }

  /** So no severity is a level name. */
  lemma SeverityNotALevel(l: Level)
    ensures Severity(l) !in AllLevels
  {
    SeverityStartsUpper(l);
    UpperNotALevel(Severity(l));
  }

  /** An upper-case severity name is not in `allLevels`, so comparing it with
      `'error'` is always negative. */
  lemma SeverityRanksBelowEverything(l: Level)
    ensures IndexOf(Severity(l)) == -1
    ensures CompareLevels(Severity(l), "error") < 0
  {
    SeverityNotALevel(l);
    IndexOfName(Error);
  }

  /** Two level names compare as their levels rank: the sign of
      `compareLevels` says which of the two is more severe. */
  lemma CompareByRank(a: Level, b: Level)
    ensures CompareLevels(Name(a), Name(b)) < 0 <==> Rank(a) < Rank(b)
    ensures CompareLevels(Name(a), Name(b)) == 0 <==> a == b
    ensures CompareLevels(Name(a), Name(b)) > 0 <==> Rank(a) > Rank(b)
  {
    IndexOfName(a);
    IndexOfName(b);
  }
}
