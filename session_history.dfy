/**
 * The bounded session history of `tests/session_history_e2e.rs`: a double-ended
 * queue of entries that drops its oldest entry when it is full, with lookup by
 * id and substring search.
 */
module SessionHistory {
  import opened Common
  import opened Strings

  datatype SessionEntry = SessionEntry(
    id: string,
    timestamp: nat,
    userPrompt: string,
    aiResponse: string,
    provider: string,
    tokensUsed: Option<nat>)

  /**
   * The state after `add_entry`: when the queue holds `maxSize` or more
   * entries the front one is popped (a no-op on an empty queue), then the new
   * entry goes to the back.
   */
  function Added(entries: seq<SessionEntry>, maxSize: nat, e: SessionEntry): seq<SessionEntry> {
    (if |entries| >= maxSize && entries != [] then entries[1..] else entries) + [e]
  }

  /** The state after adding `news` one after the other. */
  function AddAll(entries: seq<SessionEntry>, maxSize: nat, news: seq<SessionEntry>): seq<SessionEntry> {
    if news == [] then entries
    else Added(AddAll(entries, maxSize, news[..|news| - 1]), maxSize, news[|news| - 1])
  }

  /** The bound the queue keeps: `max_size`, and at least one since a push always follows the pop. */
  function Capacity(maxSize: nat): (c: nat)
    ensures c >= 1 && c >= maxSize
  {
    if maxSize == 0 then 1 else maxSize
  }

  /** The last `k` elements of `s`, or all of them when there are fewer. */
  function Last<T>(s: seq<T>, k: nat): seq<T>
  {
    if |s| <= k then s else s[|s| - k..]
  }

  /** One addition to a queue within its bound keeps the most recent entries. */
  lemma AddedKeepsLast(entries: seq<SessionEntry>, maxSize: nat, e: SessionEntry)
    requires |entries| <= Capacity(maxSize)
    ensures Added(entries, maxSize, e) == Last(entries + [e], Capacity(maxSize))
  {
    if |entries| == Capacity(maxSize) {
      assert (entries + [e])[1..] == entries[1..] + [e];
    }
  }

  /** Taking the last `k` before appending one more changes nothing. */
  lemma LastSnoc<T>(s: seq<T>, k: nat, x: T)
    requires k >= 1
    ensures Last(Last(s, k) + [x], k) == Last(s + [x], k)
  {
    if |s| > k {
      var t := s[|s| - k..];
      assert (t + [x])[1..] == (s + [x])[|s| + 1 - k..];
    }
  }

  /** Adding to the most recent entries of `s` gives the most recent entries of `s` and the new one. */
  lemma AddedToLast(s: seq<SessionEntry>, maxSize: nat, e: SessionEntry)
    ensures Added(Last(s, Capacity(maxSize)), maxSize, e) == Last(s + [e], Capacity(maxSize))
  {
    var c := Capacity(maxSize);
    AddedKeepsLast(Last(s, c), maxSize, e);
    LastSnoc(s, c, e);
  }

  /**
   * The retained entries are exactly the `max(max_size, 1)` most recent, in
   * the order they were added, for a queue that starts within its bound.
   */
  lemma {:induction false} RetainsMostRecent(entries: seq<SessionEntry>, maxSize: nat, news: seq<SessionEntry>)
    requires |entries| <= Capacity(maxSize)
    ensures AddAll(entries, maxSize, news) == Last(entries + news, Capacity(maxSize))
  {
    if news == [] {
      assert entries + news == entries;
    } else {
      var init, e := news[..|news| - 1], news[|news| - 1];
      assert news == init + [e];
      RetainsMostRecent(entries, maxSize, init);
      AddedToLast(entries + init, maxSize, e);
      assert entries + init + [e] == entries + news;
    }
  }

  /** The queue never grows past its bound. */
  lemma StaysBounded(entries: seq<SessionEntry>, maxSize: nat, news: seq<SessionEntry>)
    requires |entries| <= Capacity(maxSize)
    ensures |AddAll(entries, maxSize, news)| <= Capacity(maxSize)
    ensures |AddAll(entries, maxSize, news)| == if |entries| + |news| <= Capacity(maxSize) then |entries| + |news| else Capacity(maxSize)
  {
    RetainsMostRecent(entries, maxSize, news);
  }

  /** `get_by_id`: the first entry with the given id. */
  function FindById(entries: seq<SessionEntry>, id: string): (r: Option<SessionEntry>)
    ensures r.None? <==> forall i :: 0 <= i < |entries| ==> entries[i].id != id
    ensures r.Some? ==> r.value in entries && r.value.id == id
  {
    if entries == [] then None
    else if entries[0].id == id then Some(entries[0])
    else FindById(entries[1..], id)
  }

  /** No entry before the one `get_by_id` finds has its id. */
  lemma {:induction false} FindByIdFirst(entries: seq<SessionEntry>, id: string)
    requires FindById(entries, id).Some?
    ensures exists i :: 0 <= i < |entries| && entries[i] == FindById(entries, id).value
                        && forall j :: 0 <= j < i ==> entries[j].id != id
  {
    if entries[0].id != id {
      FindByIdFirst(entries[1..], id);
      var i :| 0 <= i < |entries[1..]| && entries[1..][i] == FindById(entries[1..], id).value
               && forall j :: 0 <= j < i ==> entries[1..][j].id != id;
      assert entries[i + 1] == FindById(entries, id).value;
      forall j | 0 <= j < i + 1
        ensures entries[j].id != id
      {
        if j > 0 {
          assert entries[j] == entries[1..][j - 1];
        }
      }
    } else {
      assert entries[0] == FindById(entries, id).value;
    }
  }

  /** The predicate `search` filters with. */
  predicate Matches(e: SessionEntry, query: string) {
    Contains(e.userPrompt, query) || Contains(e.aiResponse, query)
  }

  /** `search`: the entries whose prompt or response contains the query, in order. */
  function Search(entries: seq<SessionEntry>, query: string): (r: seq<SessionEntry>)
    ensures |r| <= |entries|
    ensures forall e :: e in r <==> e in entries && Matches(e, query)
  {
    if entries == [] then []
    else
      var rest := Search(entries[1..], query);
      assert forall e :: e in entries <==> e == entries[0] || e in entries[1..];
      if Matches(entries[0], query) then [entries[0]] + rest else rest
  }

  /** `search` works entry by entry, so it keeps the order of the history. */
  lemma {:induction false} SearchConcat(a: seq<SessionEntry>, b: seq<SessionEntry>, query: string)
    ensures Search(a + b, query) == Search(a, query) + Search(b, query)
  {
    if a == [] {
      assert a + b == b;
    } else {
      assert (a + b)[0] == a[0] && (a + b)[1..] == a[1..] + b;
      SearchConcat(a[1..], b, query);
    }
  }

  class History {
    var entries: seq<SessionEntry>
    var maxSize: nat

    /** `new`: an empty history with the given bound. */
    constructor (maxSize: nat)
      ensures this.entries == [] && this.maxSize == maxSize
    {
      entries := [];
      this.maxSize := maxSize;
    }

    /** `add_entry`: evicts the oldest entry when full, then appends. */
    method AddEntry(e: SessionEntry)
      modifies this
      ensures entries == Added(old(entries), old(maxSize), e) && maxSize == old(maxSize)
      ensures |old(entries)| <= Capacity(maxSize) ==> entries == Last(old(entries) + [e], Capacity(maxSize))
    {
      if |entries| >= maxSize && entries != [] {
        entries := entries[1..];
      }
      entries := entries + [e];
      if |old(entries)| <= Capacity(maxSize) {
        AddedKeepsLast(old(entries), maxSize, e);
      }
    }

    /** `clear`: drops every entry and keeps the bound. */
    method Clear()
      modifies this
      ensures entries == [] && maxSize == old(maxSize)
    {
      entries := [];
    }

    function Len(): nat
      reads this
    {
      |entries|
    }

    function GetEntries(): seq<SessionEntry>
      reads this
    {
      entries
    }

    function GetById(id: string): Option<SessionEntry>
      reads this
    {
      FindById(entries, id)
    }

    function SearchEntries(query: string): seq<SessionEntry>
      reads this
    {
      Search(entries, query)
    }
  }

  /** The entry the size test adds in round `i`. */
  function TestEntry(i: nat): SessionEntry {
    SessionEntry("entry-" + NatToString(i), 0, "Prompt " + NatToString(i), "Response " + NatToString(i),
                 "Mock Provider", Some(50))
  }

  function TestEntries(n: nat): (r: seq<SessionEntry>)
    ensures |r| == n && forall i :: 0 <= i < n ==> r[i] == TestEntry(i)
  {
    seq(n, i requires 0 <= i => TestEntry(i))
  }

  /**
   * `test_session_history_max_size`: five additions to a history of size three
   * keep three entries, the oldest prompted "Prompt 2" and the newest "Prompt 4".
   */
  method MaxSizeScenario() returns (kept: seq<SessionEntry>)
    ensures |kept| == 3
    ensures kept[0].userPrompt == "Prompt 2" && kept[2].userPrompt == "Prompt 4"
  {
    var h := new History(3);
    for i := 0 to 5
      invariant h.maxSize == 3
      invariant h.entries == AddAll([], 3, TestEntries(i))
    {
      assert TestEntries(i + 1)[..i] == TestEntries(i);
      h.AddEntry(TestEntry(i));
    }
    kept := h.GetEntries();
    RetainsMostRecent([], 3, TestEntries(5));
    assert [] + TestEntries(5) == TestEntries(5);
    assert kept == TestEntries(5)[2..];
    assert NatToString(2) == "2" && NatToString(4) == "4";
  }
}
