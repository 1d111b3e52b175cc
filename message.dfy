/** A chat message and the timestamp order the engine sorts by.
    Timestamps are whole microseconds: the source's `datetime` values
    carry microsecond precision and the engine's one arithmetic step on
    them adds exactly one microsecond. */
module Messages {

  datatype Message = Message(id: int, name: string, timestamp: int, content: string)

  /** Every message is at or before every later one in the sequence. */
  ghost predicate SortedByTimestamp(ms: seq<Message>)
  {
    forall i, j :: 0 <= i < j < |ms| ==> ms[i].timestamp <= ms[j].timestamp
  }

  /** The messages of `ms` stamped `t`, in their order in `ms`. */
  function StampedAt(ms: seq<Message>, t: int): (r: seq<Message>)
    ensures |r| <= |ms|
  {
    if ms == [] then []
    else (if ms[0].timestamp == t then [ms[0]] else []) + StampedAt(ms[1..], t)
  }

  /** Puts `m` in front of the first element of `ms` that is not earlier
      than it, so that `m` precedes every element with its timestamp. */
  function InsertByTimestamp(m: Message, ms: seq<Message>): (r: seq<Message>)
    ensures multiset(r) == multiset(ms) + multiset{m}
  {
    if ms == [] || m.timestamp <= ms[0].timestamp then [m] + ms
    else
      assert ms == [ms[0]] + ms[1..];
      [ms[0]] + InsertByTimestamp(m, ms[1..])
  }

  /** Inserting into a sorted sequence gives a sorted sequence. */
  lemma {:induction false} InsertKeepsSorted(m: Message, ms: seq<Message>)
    requires SortedByTimestamp(ms)
    ensures SortedByTimestamp(InsertByTimestamp(m, ms))
  {
    if ms != [] && m.timestamp > ms[0].timestamp {
      var rest := InsertByTimestamp(m, ms[1..]);
      InsertKeepsSorted(m, ms[1..]);
      assert ms == [ms[0]] + ms[1..];
      forall k | 0 <= k < |rest| ensures ms[0].timestamp <= rest[k].timestamp {
        assert rest[k] in multiset(rest);
        assert rest[k] == m || rest[k] in ms[1..];
      }
    }
  }

  /** The stable sort by timestamp that `list.sort(key=...)` and
      `sorted(..., key=...)` perform (both are stable in Python). */
  function SortByTimestamp(ms: seq<Message>): (r: seq<Message>)
    ensures SortedByTimestamp(r)
    ensures multiset(r) == multiset(ms)
    ensures |r| == |ms|
  {
    if ms == [] then []
    else
      assert ms == [ms[0]] + ms[1..];
      InsertKeepsSorted(ms[0], SortByTimestamp(ms[1..]));
      InsertByTimestamp(ms[0], SortByTimestamp(ms[1..]))
  }

  /** Inserting keeps the order among messages with any one timestamp. */
  lemma {:induction false} InsertKeepsStampOrder(m: Message, ms: seq<Message>, t: int)
    ensures StampedAt(InsertByTimestamp(m, ms), t)
         == (if m.timestamp == t then [m] else []) + StampedAt(ms, t)
  {
    if ms == [] || m.timestamp <= ms[0].timestamp {
      assert ([m] + ms)[1..] == ms;
    } else {
      InsertKeepsStampOrder(m, ms[1..], t);
      assert ([ms[0]] + InsertByTimestamp(m, ms[1..]))[1..] == InsertByTimestamp(m, ms[1..]);
    }
  }

  /** The sort is stable: messages that share a timestamp keep their
      relative order. */
  lemma {:induction false} SortIsStable(ms: seq<Message>, t: int)
    ensures StampedAt(SortByTimestamp(ms), t) == StampedAt(ms, t)
  {
    if ms != [] {
      SortIsStable(ms[1..], t);
      InsertKeepsStampOrder(ms[0], SortByTimestamp(ms[1..]), t);
    }
  }

  /** A sequence already in timestamp order is left as it is. */
  lemma {:induction false} SortOfSortedIsIdentity(ms: seq<Message>)
    requires SortedByTimestamp(ms)
    ensures SortByTimestamp(ms) == ms
  {
    if ms != [] {
      SortOfSortedIsIdentity(ms[1..]);
      assert ms == [ms[0]] + ms[1..];
    }
  }

  /** Sorting twice is sorting once. */
  lemma SortIsIdempotent(ms: seq<Message>)
    ensures SortByTimestamp(SortByTimestamp(ms)) == SortByTimestamp(ms)
  {
    SortOfSortedIsIdentity(SortByTimestamp(ms));
  }

  /** No two messages share an id. */
  ghost predicate DistinctIds(ms: seq<Message>)
  {
    forall i, j :: 0 <= i < |ms| && 0 <= j < |ms| && i != j ==> ms[i].id != ms[j].id
  }

  lemma {:induction false} InsertKeepsDistinctIds(m: Message, ms: seq<Message>)
    requires DistinctIds(ms)
    requires forall x :: x in ms ==> x.id != m.id
    ensures DistinctIds(InsertByTimestamp(m, ms))
  {
    if ms != [] && m.timestamp > ms[0].timestamp {
      var rest := InsertByTimestamp(m, ms[1..]);
      assert ms == [ms[0]] + ms[1..];
      InsertKeepsDistinctIds(m, ms[1..]);
      forall k | 0 <= k < |rest| ensures rest[k].id != ms[0].id {
        assert rest[k] in multiset(rest);
        if rest[k] != m {
          assert rest[k] in ms[1..];
          var j :| 0 <= j < |ms[1..]| && ms[1..][j] == rest[k];
          assert ms[j + 1] == rest[k];
        }
      }
      assert [ms[0]] + rest == InsertByTimestamp(m, ms);
    }
  }

  /** Sorting neither creates nor removes a shared id. */
  lemma {:induction false} SortKeepsDistinctIds(ms: seq<Message>)
    requires DistinctIds(ms)
    ensures DistinctIds(SortByTimestamp(ms))
  {
    if ms != [] {
      assert ms == [ms[0]] + ms[1..];
      var sorted := SortByTimestamp(ms[1..]);
      SortKeepsDistinctIds(ms[1..]);
      forall x | x in sorted ensures x.id != ms[0].id {
        assert x in multiset(sorted);
        var j :| 0 <= j < |ms[1..]| && ms[1..][j] == x;
        assert ms[j + 1] == x;
      }
      InsertKeepsDistinctIds(ms[0], sorted);
    }
  }
}
