/** Small vocabulary shared by every component model. */
module Common {

  datatype Option<+T> = None | Some(value: T)

  function Max(a: int, b: int): int {
    if a > b then a else b
  }

  function Concat<T>(parts: seq<seq<T>>): seq<T> {
    if parts == [] then [] else parts[0] + Concat(parts[1..])
  }

  lemma {:induction false} ConcatAppend<T>(parts: seq<seq<T>>, last: seq<T>)
    ensures Concat(parts + [last]) == Concat(parts) + last
  {
    if parts == [] {
      assert parts + [last] == [last];
      assert Concat([last]) == last + Concat<T>([]);
    } else {
      assert (parts + [last])[1..] == parts[1..] + [last];
      ConcatAppend(parts[1..], last);
    }
  }

  /** Sum of the lengths of the strings, the `output_chars` of a streamed reply. */
  function TotalLength(parts: seq<string>): nat {
    if parts == [] then 0 else |parts[0]| + TotalLength(parts[1..])
  }

  lemma {:induction false} TotalLengthIsJoinedLength(parts: seq<string>)
    ensures TotalLength(parts) == |Concat(parts)|
  {
    if parts != [] {
      TotalLengthIsJoinedLength(parts[1..]);
    }
  }

  lemma {:induction false} TotalLengthAppend(parts: seq<string>, last: string)
    ensures TotalLength(parts + [last]) == TotalLength(parts) + |last|
  {
    TotalLengthIsJoinedLength(parts + [last]);
    TotalLengthIsJoinedLength(parts);
    ConcatAppend(parts, last);
  }
}
