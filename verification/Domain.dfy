/** Value types shared by every component: results, channels, categories and
    notification content.  Instants are integer microseconds since the epoch. */
module Domain {

  datatype Option<+T> = None | Some(value: T)

  datatype Result<+T, +E> = Ok(value: T) | Err(error: E)

  const SECOND: int := 1_000_000

  function Min(a: int, b: int): int {
    if a <= b then a else b
  }

  datatype Channel = Email | Push | Sms | InApp

  datatype Category = Critical | Informational | Social | Promotional

  datatype Action = Action(caption: string, url: string)

  datatype Image = Image(url: string, alt: Option<string>)

  datatype Content = Content(title: Option<string>, body: string, actions: seq<Action>, images: seq<Image>)

  /** The stored spelling of a channel. */
  function ChannelValue(c: Channel): string {
    match c
    case Email => "email"
    case Push => "push"
    case Sms => "sms"
    case InApp => "in_app"
  }

  predicate Distinct<T(==)>(s: seq<T>) {
    forall i, j :: 0 <= i < j < |s| ==> s[i] != s[j]
  }

  function Elements<T(==)>(s: seq<T>): set<T> {
    set x | x in s
  }

  /** A sequence over [0, bound) longer than `bound` repeats a value. */
  lemma {:induction false} Pigeonhole(s: seq<nat>, bound: nat) returns (a: nat, b: nat)
    requires |s| > bound
    requires forall i :: 0 <= i < |s| ==> s[i] < bound
    ensures a < b < |s| && s[a] == s[b]
    decreases bound
  {
    var last := |s| - 1;
    if k: nat :| k < last && s[k] == s[last] {
      return k, last;
    }
    // No earlier entry equals the last one: rename `bound - 1` to it and drop it.
    var renamed := seq(last, i requires 0 <= i < last => if s[i] == bound - 1 then s[last] else s[i]);
    a, b := Pigeonhole(renamed, bound - 1);
    assert s[a] != s[last] && s[b] != s[last];
  }

  /** A duplicate-free sequence is as long as its set of elements. */
  lemma {:induction false} DistinctCardinality<T>(s: seq<T>)
    requires Distinct(s)
    ensures |Elements(s)| == |s|
  {
    if s == [] {
    } else {
      var front := s[..|s| - 1];
      DistinctCardinality(front);
      assert Elements(s) == Elements(front) + {s[|s| - 1]};
      assert s[|s| - 1] !in Elements(front);
    }
  }
}
