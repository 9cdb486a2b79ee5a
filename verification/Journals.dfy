/** Append-only journals as their readers split them, and the power a call has left. */
module Journals {
  import opened Results

  /** One piece: a canonical record with its LF, other bytes with their LF, or bytes not ended by an LF. */
  datatype Line<T> = Rec(value: T) | Junk | Open(content: string)

  /** What appends alone can leave: canonical records, then at most one piece without its LF. */
  datatype Journal<T> = Journal(records: seq<T>, torn: Option<string>)

  /** Durable writes left before the process dies, and the piece a cut append leaves (None: nothing). */
  datatype Power = Power(writes: nat, tear: Option<string>)

  function Recs<T>(records: seq<T>): (lines: seq<Line<T>>)
    ensures |lines| == |records| && forall i :: 0 <= i < |records| ==> lines[i] == Rec(records[i])
  {
    seq(|records|, i requires 0 <= i < |records| => Rec(records[i]))
  }

  function LinesOf<T>(j: Journal<T>): seq<Line<T>> {
    Recs(j.records) + (if j.torn.Some? then [Open(j.torn.value)] else [])
  }

  function UpTo(n: nat): (s: set<int>)
    ensures |s| == n && forall i :: i in s <==> 1 <= i <= n
  {
    if n == 0 then {} else UpTo(n - 1) + {n}
  }
}
