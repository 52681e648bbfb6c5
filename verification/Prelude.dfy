/** Shared value types and the few string operations the controller relies on. */
module Prelude {

  datatype Option<+T> = None | Some(value: T) {
    function GetOr(default: T): T {
      match this
      case Some(v) => v
      case None => default
    }
  }

  datatype Result<+T, +E> = Ok(value: T) | Err(error: E)

  /** The fate of a request that crosses the network: it is done, it fails and changes
      nothing, or it fails although its effect took place. */
  datatype Outcome = Done | Refused | Lost

  /** Case folding is ASCII only; the values it is applied to (protocols, DNS names,
      annotation flags) are ASCII. */
  function LowerChar(c: char): char {
    if 'A' <= c <= 'Z' then (c as int + 32) as char else c
  }

  function Lower(s: string): (r: string) {
    seq(|s|, i requires 0 <= i < |s| => LowerChar(s[i]))
  }

  predicate EqualFold(a: string, b: string) {
    Lower(a) == Lower(b)
  }

  /** Capitals become small letters, and nothing else changes. */
  lemma LowerMeans(s: string)
    ensures |Lower(s)| == |s|
    ensures forall i | 0 <= i < |s| ::
              if 'A' <= s[i] <= 'Z' then Lower(s)[i] as int == s[i] as int + 32 else Lower(s)[i] == s[i]
    ensures 'a' as int == 'A' as int + 32
  {}

  lemma LowerIdempotent(s: string)
    ensures Lower(Lower(s)) == Lower(s)
  {
    assert forall i | 0 <= i < |s| :: Lower(Lower(s))[i] == Lower(s)[i];
  }

  predicate HasPrefix(s: string, prefix: string) {
    prefix <= s
  }

  predicate HasSuffix(s: string, suffix: string) {
    |suffix| <= |s| && s[|s| - |suffix|..] == suffix
  }

  function TrimPrefix(s: string, prefix: string): string {
    if prefix <= s then s[|prefix|..] else s
  }

  lemma TrimPrefixOf(prefix: string, s: string)
    ensures TrimPrefix(prefix + s, prefix) == s
  {
    assert prefix <= prefix + s;
    assert (prefix + s)[|prefix|..] == s;
  }

  lemma ConcatAssociative<T>(a: seq<T>, b: seq<T>, c: seq<T>)
    ensures (a + b) + c == a + (b + c)
  {}

  /** What every step of a sequence keeps holds all along. */
  lemma {:induction false} Along<T(!new)>(xs: seq<T>, p: T -> bool, j: nat)
    requires j < |xs| && p(xs[0])
    requires forall i | 0 < i < |xs| && p(xs[i - 1]) :: p(xs[i])
    ensures p(xs[j])
  {
    if j > 0 { Along(xs, p, j - 1); }
  }
}
