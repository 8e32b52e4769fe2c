/** The score cache table: delete-and-insert in one transaction, expiry on read. */
module ScoreCache {
  import opened Prelude

  datatype Json =
    | JNull | JBool(b: bool) | JNum(n: int) | JStr(s: string) | JArr(items: seq<Json>) | JObj(fields: map<string, Json>)

  const SECOND: int := 1_000_000   // timestamps are in microseconds

  datatype Row = Row(endpoint: string, subject: string, body: Json, cachedAt: int, expiresAt: int)

  /** How far a write got: a commit may fail to be confirmed and still have been applied. */
  datatype WriteFate = OpenFailed | DeleteFailed | InsertFailed | CommitUnconfirmed(applied: bool) | Committed

  datatype Write = Write(endpoint: string, subject: string, body: Json, ttlSecs: int, at: int, fate: WriteFate)

  function Matches(endpoint: string, subject: string): Row -> bool {
    (r: Row) => r.endpoint == endpoint && r.subject == subject
  }

  function Others(endpoint: string, subject: string): Row -> bool {
    (r: Row) => !(r.endpoint == endpoint && r.subject == subject)
  }

  function Live(endpoint: string, subject: string, now: int): Row -> bool {
    (r: Row) => r.endpoint == endpoint && r.subject == subject && r.expiresAt > now
  }

  function ClampTtl(secs: int): nat {
    Clamp(secs, 1, 86400)
  }

  predicate Applied(w: Write) {
    w.fate == Committed || (w.fate.CommitUnconfirmed? && w.fate.applied)
  }

  function RowOf(w: Write): Row {
    Row(w.endpoint, w.subject, w.body, w.at, w.at + ClampTtl(w.ttlSecs) * SECOND)
  }

  // ----- Runs -----

  /** Delete the key's rows, insert the new one; a write that is not applied leaves the table alone. */
  function AfterWrite(rows: seq<Row>, w: Write): seq<Row> {
    if Applied(w) then Filter(Others(w.endpoint, w.subject), rows) + [RowOf(w)] else rows
  }

  function TableAfter(writes: seq<Write>): seq<Row> {
    if writes == [] then [] else AfterWrite(TableAfter(writes[..|writes| - 1]), writes[|writes| - 1])
  }

  /** The last applied write for a key. */
  function LastWrite(writes: seq<Write>, endpoint: string, subject: string): Option<Write> {
    if writes == [] then None
    else
      var last := writes[|writes| - 1];
      if Applied(last) && last.endpoint == endpoint && last.subject == subject then Some(last)
      else LastWrite(writes[..|writes| - 1], endpoint, subject)
  }

  /** What a read must answer: the last applied write, while it is younger than its clamped TTL. */
  function CachedAnswer(writes: seq<Write>, endpoint: string, subject: string, now: int): Option<(Json, int)> {
    var last := LastWrite(writes, endpoint, subject);
    if last.Some? && now - last.value.at < ClampTtl(last.value.ttlSecs) * SECOND
    then Some((last.value.body, last.value.at)) else None
  }

  lemma {:induction false} FilterTwice(rows: seq<Row>, e: string, s: string, e': string, s': string)
    ensures Filter(Matches(e, s), Filter(Others(e', s'), rows))
      == if e == e' && s == s' then [] else Filter(Matches(e, s), rows)
  {
    if rows != [] {
      var init, last := rows[..|rows| - 1], rows[|rows| - 1];
      FilterTwice(init, e, s, e', s');
      FilterConcat(Matches(e, s), Filter(Others(e', s'), init), if Others(e', s')(last) then [last] else []);
      assert [last][..0] == [];
    }
  }

  /** After any run of writes, with any failures, a key has at most one row: that of its last applied write. */
  lemma {:induction false} OneRowPerKey(writes: seq<Write>, endpoint: string, subject: string)
    ensures
      var last := LastWrite(writes, endpoint, subject);
      Filter(Matches(endpoint, subject), TableAfter(writes)) == if last == None then [] else [RowOf(last.value)]
  {
    if writes != [] {
      var init, last := writes[..|writes| - 1], writes[|writes| - 1];
      OneRowPerKey(init, endpoint, subject);
      if Applied(last) {
        FilterTwice(TableAfter(init), endpoint, subject, last.endpoint, last.subject);
        FilterConcat(Matches(endpoint, subject), Filter(Others(last.endpoint, last.subject), TableAfter(init)), [RowOf(last)]);
        assert [RowOf(last)][..0] == [];
      }
    }
  }

  lemma {:induction false} LiveIsMatchingAndUnexpired(rows: seq<Row>, e: string, s: string, now: int)
    ensures Filter(Live(e, s, now), rows) == Filter(Live(e, s, now), Filter(Matches(e, s), rows))
  {
    if rows != [] {
      var init, last := rows[..|rows| - 1], rows[|rows| - 1];
      LiveIsMatchingAndUnexpired(init, e, s, now);
      FilterConcat(Live(e, s, now), Filter(Matches(e, s), init), if Matches(e, s)(last) then [last] else []);
      assert [last][..0] == [];
    }
  }

  lemma {:induction false} LastWriteKey(writes: seq<Write>, e: string, s: string)
    ensures
      var last := LastWrite(writes, e, s);
      last.Some? ==> last.value in writes && Applied(last.value) && last.value.endpoint == e && last.value.subject == s
  {
    if writes != [] {
      LastWriteKey(writes[..|writes| - 1], e, s);
    }
  }

  /** The query a read runs returns at most one row, and it is the cached answer. */
  lemma ReadsSeeTheLastWrite(writes: seq<Write>, e: string, s: string, now: int)
    ensures
      var hits := Filter(Live(e, s, now), TableAfter(writes));
      var answer := CachedAnswer(writes, e, s, now);
      if answer == None then hits == []
      else |hits| == 1 && hits[0].body == answer.value.0 && hits[0].cachedAt == answer.value.1
  {
    OneRowPerKey(writes, e, s);
    LiveIsMatchingAndUnexpired(TableAfter(writes), e, s, now);
    LastWriteKey(writes, e, s);
    var last := LastWrite(writes, e, s);
    if last.Some? {
      assert [RowOf(last.value)][..0] == [];
    }
  }

  class CacheTable {
    var rows: seq<Row>
    ghost var log: seq<Write>   // every write attempted so far

    ghost predicate Valid()
      reads this
    {
      rows == TableAfter(log)
    }

    constructor ()
      ensures Valid() && log == []
    {
      rows, log := [], [];
    }

    /** Err when the query fails (more than one matching row would be such a failure). */
    method Get(endpoint: string, subject: string, now: int, dbOk: bool) returns (r: Result<Option<(Json, int)>, string>)
      requires Valid()
      ensures dbOk ==> r == Ok(CachedAnswer(log, endpoint, subject, now))
      ensures !dbOk ==> r.Err?
    {
      if !dbOk {
        return Err("cache read failed");
      }
      var hits := Filter(Live(endpoint, subject, now), rows);
      ReadsSeeTheLastWrite(log, endpoint, subject, now);
      if |hits| > 1 {
        return Err("query returned an unexpected number of rows");
      }
      r := Ok(if hits == [] then None else Some((hits[0].body, hits[0].cachedAt)));
    }

    method Set(endpoint: string, subject: string, body: Json, ttlSecs: int, now: int, fate: WriteFate)
      returns (r: Result<(), string>)
      requires Valid()
      modifies this
      ensures Valid()
      ensures log == old(log) + [Write(endpoint, subject, body, ttlSecs, now, fate)]
      ensures r.Ok? <==> fate == Committed
    {
      ghost var w := Write(endpoint, subject, body, ttlSecs, now, fate);
      log := log + [w];
      assert log[..|log| - 1] == old(log);
      if fate == OpenFailed {
        return Err("open transaction failed");
      }
      if fate == DeleteFailed {
        return Err("delete failed");
      }
      var pending := Filter(Others(endpoint, subject), rows);
      if fate == InsertFailed {
        return Err("insert failed");
      }
      var ttl := ClampTtl(ttlSecs);
      pending := pending + [Row(endpoint, subject, body, now, now + ttl * SECOND)];
      if fate.CommitUnconfirmed? {
        if fate.applied {
          rows := pending;
        }
        return Err("commit failed");
      }
      rows := pending;
      r := Ok(());
    }
  }
}
