/** backend/internal/patching/updates.go: an append-only list of patch
    records, queried per agent newest first, up to a limit. The context
    argument is not modelled. */
module UpdateRecords {
  import opened Common
  import opened Patching

  /** The agent's records, newest first. */
  function NewestMatching(records: seq<PatchRecord>, agentId: string): seq<PatchRecord>
  {
    if records == [] then []
    else NewestMatching(records[1..], agentId) + (if records[0].agentId == agentId then [records[0]] else [])
  }

  /** The agent's records in insertion order. */
  function Matching(records: seq<PatchRecord>, agentId: string): seq<PatchRecord>
  {
    if records == [] then []
    else
      var last := records[|records| - 1];
      Matching(records[..|records| - 1], agentId) + (if last.agentId == agentId then [last] else [])
  }

  function Reverse<T>(s: seq<T>): (r: seq<T>)
    ensures |r| == |s|
  {
    if s == [] then [] else Reverse(s[1..]) + [s[0]]
  }

  /** The first `n` elements (all of them when there are fewer; none when
      `n` is not positive). */
  function Take<T>(s: seq<T>, n: int): (r: seq<T>)
    ensures |r| == if n <= 0 then 0 else if n < |s| then n else |s|
  {
    if n <= 0 then [] else if n < |s| then s[..n] else s
  }

  /** Splitting the records splits the newest-first list: the later part's
      records come first. */
  lemma {:induction false} NewestMatchingConcat(a: seq<PatchRecord>, b: seq<PatchRecord>, agentId: string)
    ensures NewestMatching(a + b, agentId) == NewestMatching(b, agentId) + NewestMatching(a, agentId)
  {
    if a == [] {
      assert a + b == b;
    } else {
      assert (a + b)[1..] == a[1..] + b;
      NewestMatchingConcat(a[1..], b, agentId);
    }
  }

  lemma {:induction false} ReverseSnoc<T>(s: seq<T>, x: T)
    ensures Reverse(s + [x]) == [x] + Reverse(s)
  {
    if s != [] {
      assert (s + [x])[1..] == s[1..] + [x];
      ReverseSnoc(s[1..], x);
    }
  }

  /** Newest first is the agent's records in insertion order, reversed;
      every record in it belongs to the agent. */
  lemma {:induction false} NewestMatchingIsReversed(records: seq<PatchRecord>, agentId: string)
    ensures NewestMatching(records, agentId) == Reverse(Matching(records, agentId))
    ensures forall r :: r in NewestMatching(records, agentId) <==> r in records && r.agentId == agentId
  {
    if records != [] {
      var n := |records|;
      var init := records[..n - 1];
      var last := records[n - 1];
      assert records == init + [last];
      NewestMatchingIsReversed(init, agentId);
      NewestMatchingConcat(init, [last], agentId);
      assert NewestMatching([last], agentId) == (if last.agentId == agentId then [last] else []) by {
        assert [last][1..] == [];
      }
      assert NewestMatching(records, agentId) == NewestMatching([last], agentId) + NewestMatching(init, agentId);
      assert Matching(records, agentId) == Matching(init, agentId) + (if last.agentId == agentId then [last] else []);
      if last.agentId == agentId {
        ReverseSnoc(Matching(init, agentId), last);
      } else {
        assert Matching(records, agentId) == Matching(init, agentId);
      }
    }
  }

  class UpdateRepository {
    var records: seq<PatchRecord>

    constructor ()
      ensures records == []
    {
      records := [];
    }

    /** Appends a copy of the record; it never fails. */
    method SaveUpdateRecord(record: PatchRecord) returns (r: Result<()>)
      modifies this
      ensures r.Ok? && records == old(records) + [record]
    {
      records := records + [record];
      r := Ok(());
    }

    /** The agent's most recent `limit` records, newest first; it never
        fails. */
    method GetUpdateRecords(agentID: string, limit: int) returns (r: Result<seq<PatchRecord>>)
      ensures r == Ok(Take(NewestMatching(records, agentID), limit))
    {
      var results := [];
      var count := 0;
      var i := |records| - 1;
      while i >= 0 && count < limit
        invariant -1 <= i < |records|
        invariant results == NewestMatching(records[i + 1..], agentID)
        invariant count == |results|
        invariant limit <= 0 ==> results == []
        invariant limit > 0 ==> count <= limit
        decreases i
      {
        assert records[i..] == [records[i]] + records[i + 1..];
        NewestMatchingConcat([records[i]], records[i + 1..], agentID);
        assert NewestMatching([records[i]], agentID) == (if records[i].agentId == agentID then [records[i]] else []) by {
          assert [records[i]][1..] == [];
        }
        if records[i].agentId == agentID {
          results := results + [records[i]];
          count := count + 1;
        }
        i := i - 1;
      }
      assert records == records[..i + 1] + records[i + 1..];
      NewestMatchingConcat(records[..i + 1], records[i + 1..], agentID);
      ghost var all := NewestMatching(records, agentID);
      assert all == results + NewestMatching(records[..i + 1], agentID);
      if limit > 0 && i < 0 {
        assert records[..i + 1] == [];
        assert all == results;
      } else if limit > 0 {
        assert |results| == limit;
        assert all[..limit] == results;
      }
      assert Take(all, limit) == results;
      r := Ok(results);
    }
  }
}
