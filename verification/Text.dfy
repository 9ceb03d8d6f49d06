/** Strings as JavaScript trims, splits and joins them. */
module Text {
  /** The characters `String.prototype.trim` removes. */
  predicate IsSpace(c: char) {
    var n := c as int;
    9 <= n <= 13 || n == 32 || n == 160 || n == 5760 || 8192 <= n <= 8202 || n == 8232 || n == 8233 || n == 8239
    || n == 8287 || n == 12288 || n == 65279
  }

  function TrimStart(s: string): string {
    if s != "" && IsSpace(s[0]) then TrimStart(s[1..]) else s
  }

  function TrimEnd(s: string): string {
    if s != "" && IsSpace(s[|s| - 1]) then TrimEnd(s[..|s| - 1]) else s
  }

  function Trim(s: string): string {
    TrimEnd(TrimStart(s))
  }

  predicate Clean(s: string) {
    s == "" || (!IsSpace(s[0]) && !IsSpace(s[|s| - 1]))
  }

  lemma {:induction false} TrimEndKeepsStart(s: string)
    requires s == "" || !IsSpace(s[0])
    ensures Clean(TrimEnd(s))
    decreases |s|
  {
    if s != "" && IsSpace(s[|s| - 1]) { TrimEndKeepsStart(s[..|s| - 1]); }
  }

  lemma {:induction false} TrimStartIsStarted(s: string)
    ensures TrimStart(s) == "" || !IsSpace(TrimStart(s)[0])
    decreases |s|
  {
    if s != "" && IsSpace(s[0]) { TrimStartIsStarted(s[1..]); }
  }

  lemma TrimIsClean(s: string)
    ensures Clean(Trim(s))
    ensures Clean(s) ==> Trim(s) == s
    ensures Trim(Trim(s)) == Trim(s)
  {
    TrimStartIsStarted(s);
    TrimEndKeepsStart(TrimStart(s));
  }

  lemma {:induction false} TrimStartIsPart(s: string)
    ensures forall c :: c in TrimStart(s) ==> c in s
  {
    if s != "" && IsSpace(s[0]) { TrimStartIsPart(s[1..]); }
  }

  lemma {:induction false} TrimEndIsPart(s: string)
    ensures forall c :: c in TrimEnd(s) ==> c in s
    decreases |s|
  {
    if s != "" && IsSpace(s[|s| - 1]) { TrimEndIsPart(s[..|s| - 1]); }
  }

  lemma {:induction false} TrimIsPart(s: string)
    ensures forall c :: c in Trim(s) ==> c in s
  {
    TrimStartIsPart(s);
    TrimEndIsPart(TrimStart(s));
  }

  // ---------------------------------------------------------------------------------------------
  // Splitting and joining

  /** `split` at a single character: never empty. */
  function Split<T(==)>(s: seq<T>, at: T): (parts: seq<seq<T>>)
    ensures |parts| > 0
  {
    if s == [] then [[]]
    else if s[0] == at then [[]] + Split(s[1..], at)
    else
      var rest := Split(s[1..], at);
      [[s[0]] + rest[0]] + rest[1..]
  }

  function Join<T>(parts: seq<seq<T>>, between: seq<T>): seq<T> {
    if parts == [] then [] else if |parts| == 1 then parts[0] else parts[0] + between + Join(parts[1..], between)
  }

  lemma {:induction false} SplitParts<T>(s: seq<T>, at: T)
    ensures forall i :: 0 <= i < |Split(s, at)| ==> at !in Split(s, at)[i]
    ensures forall i, x :: 0 <= i < |Split(s, at)| && x in Split(s, at)[i] ==> x in s
    decreases |s|
  {
    if s != [] {
      SplitParts(s[1..], at);
      var parts, rest := Split(s, at), Split(s[1..], at);
      forall i, x | 0 <= i < |parts| && x in parts[i] ensures x != at && x in s {
        assert s[0] != at || i > 0 ==> x == s[0] || x in rest[if s[0] == at then i - 1 else i];
        assert x in s[1..] ==> x in s;
      }
    }
  }

  lemma {:induction false} SplitAfter<T>(part: seq<T>, at: T, rest: seq<T>)
    requires at !in part
    ensures Split(part + [at] + rest, at) == [part] + Split(rest, at)
    ensures Split(part, at) == [part]
    decreases |part|
  {
    if part == [] {
      assert part + [at] + rest == [at] + rest;
    } else {
      SplitAfter(part[1..], at, rest);
      assert (part + [at] + rest)[1..] == part[1..] + [at] + rest;
      assert [part[0]] + part[1..] == part;
    }
  }

  lemma {:induction false} SplitOfJoin<T>(parts: seq<seq<T>>, at: T)
    requires parts != [] && forall i :: 0 <= i < |parts| ==> at !in parts[i]
    ensures Split(Join(parts, [at]), at) == parts
    decreases |parts|
  {
    hide Split;
    if |parts| == 1 {
      SplitAfter(parts[0], at, []);
      assert parts == [parts[0]];
    } else {
      SplitOfJoin(parts[1..], at);
      SplitAfter(parts[0], at, Join(parts[1..], [at]));
      assert parts == [parts[0]] + parts[1..];
    }
  }

  lemma {:induction false} JoinHas<T>(parts: seq<seq<T>>, between: seq<T>, x: T)
    requires x !in between && forall i :: 0 <= i < |parts| ==> x !in parts[i]
    ensures x !in Join(parts, between)
  {
    if |parts| > 1 { JoinHas(parts[1..], between, x); }
  }

  lemma {:induction false} JoinOfSplit<T>(s: seq<T>, at: T)
    ensures Join(Split(s, at), [at]) == s
  {
    if s != [] {
      JoinOfSplit(s[1..], at);
      var rest := Split(s[1..], at);
      if s[0] != at && |rest| > 1 {
        assert ([s[0]] + rest[0]) + [at] + Join(rest[1..], [at]) == [s[0]] + (rest[0] + [at] + Join(rest[1..], [at]));
      }
    }
  }
}
