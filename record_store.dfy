/**
 * The persisted state the chain works on: the rows of the seed/UUID record store,
 * in the order the repository lists them (most recent first), and the
 * "most recent seed" preference head.
 */
module RecordStore {
  import opened SeedChain

  /** Records as listed, most recent first; headSeed "" means the preference is absent. */
  datatype Snapshot = Snapshot(records: seq<Record>, headSeed: string, headTs: int)

  /** What an operation leaves behind and what it returns. */
  datatype Effect<T> = Effect(after: Snapshot, out: T)

  /** Most recent first: timestamps never increase along the listing. */
  ghost predicate Sorted(rs: seq<Record>) {
    forall i, j :: 0 <= i < j < |rs| ==> rs[i].ts >= rs[j].ts
  }

  /** Timestamps never decrease along a batch. */
  ghost predicate Ascending(rs: seq<Record>) {
    forall i, j :: 0 <= i < j < |rs| ==> rs[i].ts <= rs[j].ts
  }

  /**
   * Inserting a new row: it is listed by its timestamp, before the rows that are
   * not more recent than it.
   */
  function Insert(rs: seq<Record>, r: Record): (out: seq<Record>)
    ensures |out| == |rs| + 1
    ensures (rs == [] || r.ts >= rs[0].ts) ==> out == [r] + rs
  {
    if rs == [] || r.ts >= rs[0].ts then [r] + rs
    else
      assert rs == [rs[0]] + rs[1..];
      [rs[0]] + Insert(rs[1..], r)
  }

  /** Inserting adds exactly the new row: nothing is lost, duplicated or replaced. */
  lemma {:induction false} InsertMultiset(rs: seq<Record>, r: Record)
    ensures multiset(Insert(rs, r)) == multiset(rs) + multiset{r}
  {
    if rs != [] && r.ts < rs[0].ts {
      InsertMultiset(rs[1..], r);
      assert rs == [rs[0]] + rs[1..];
    }
  }

  /** Every row of a listing is at most `bound` in timestamp. */
  ghost predicate NoneAfter(rs: seq<Record>, bound: int) {
    forall k :: 0 <= k < |rs| ==> rs[k].ts <= bound
  }

  lemma {:induction false} InsertNoneAfter(rs: seq<Record>, r: Record, bound: int)
    requires NoneAfter(rs, bound) && r.ts <= bound
    ensures NoneAfter(Insert(rs, r), bound)
  {
    var out := Insert(rs, r);
    InsertMultiset(rs, r);
    forall k | 0 <= k < |out| ensures out[k].ts <= bound {
      assert out[k] in multiset(out);
      assert out[k] == r || out[k] in multiset(rs);
    }
  }

  /** Inserting keeps the listing most recent first. */
  lemma {:induction false} InsertSorted(rs: seq<Record>, r: Record)
    requires Sorted(rs)
    ensures Sorted(Insert(rs, r))
  {
    if rs != [] && r.ts < rs[0].ts {
      var tail := rs[1..];
      var rest := Insert(tail, r);
      assert Sorted(tail);
      InsertSorted(tail, r);
      assert NoneAfter(tail, rs[0].ts);
      InsertNoneAfter(tail, r, rs[0].ts);
      var out := [rs[0]] + rest;
      assert out == Insert(rs, r);
      forall i, j | 0 <= i < j < |out| ensures out[i].ts >= out[j].ts {
        assert out[j] == rest[j - 1];
        if i > 0 {
          assert out[i] == rest[i - 1];
        }
      }
    }
  }

  /** Inserting a batch, row by row in batch order. */
  function InsertAll(rs: seq<Record>, batch: seq<Record>): (out: seq<Record>)
    ensures multiset(out) == multiset(rs) + multiset(batch)
    decreases batch
  {
    if batch == [] then rs
    else
      assert batch == [batch[0]] + batch[1..];
      InsertMultiset(rs, batch[0]);
      InsertAll(Insert(rs, batch[0]), batch[1..])
  }

  /** Inserting a batch keeps the listing most recent first. */
  lemma {:induction false} InsertAllSorted(rs: seq<Record>, batch: seq<Record>)
    requires Sorted(rs)
    ensures Sorted(InsertAll(rs, batch))
    decreases batch
  {
    if batch != [] {
      InsertSorted(rs, batch[0]);
      InsertAllSorted(Insert(rs, batch[0]), batch[1..]);
    }
  }

  function Reverse(s: seq<Record>): (r: seq<Record>)
    ensures |r| == |s|
  {
    if s == [] then [] else Reverse(s[1..]) + [s[0]]
  }

  lemma {:induction false} ReverseAt(s: seq<Record>, k: nat)
    requires k < |s|
    ensures Reverse(s)[k] == s[|s| - 1 - k]
  {
    if k < |s| - 1 {
      ReverseAt(s[1..], k);
    }
  }

  lemma AscendingTail(batch: seq<Record>)
    requires batch != [] && Ascending(batch)
    ensures Ascending(batch[1..])
    ensures |batch| > 1 ==> batch[1..][0].ts >= batch[0].ts
  {
    var rest := batch[1..];
    forall i, j | 0 <= i < j < |rest| ensures rest[i].ts <= rest[j].ts {
      assert rest[i] == batch[i + 1] && rest[j] == batch[j + 1];
    }
  }

  lemma SeqAssoc(a: seq<Record>, b: seq<Record>, c: seq<Record>)
    ensures (a + b) + c == a + (b + c)
  {
  }

  /**
   * A batch in ascending timestamp order, none older than the rows already listed,
   * ends up listed in reverse order in front of them.
   */
  lemma {:induction false} InsertAllAscending(rs: seq<Record>, batch: seq<Record>)
    requires Ascending(batch)
    requires rs == [] || batch == [] || batch[0].ts >= rs[0].ts
    ensures InsertAll(rs, batch) == Reverse(batch) + rs
    decreases batch
  {
    if batch != [] {
      var rest := batch[1..];
      var front := [batch[0]] + rs;
      assert Insert(rs, batch[0]) == front;
      assert InsertAll(rs, batch) == InsertAll(front, rest);
      AscendingTail(batch);
      InsertAllAscending(front, rest);
      var flipped := Reverse(rest);
      assert InsertAll(rs, batch) == flipped + front;
      assert Reverse(batch) == flipped + [batch[0]];
      SeqAssoc(flipped, [batch[0]], rs);
    }
  }
}
