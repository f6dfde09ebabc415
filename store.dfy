/**
 * The message table of the database, as the WebSocket handlers of
 * src/websocket.ts use it: `message.create` (line 142) and the history
 * query `message.findMany({ where: { roomId }, orderBy: { createdAt: "asc" },
 * take: 50 })` (lines 93-107). The database is foreign: the identifier,
 * creation time and author name it gives a new row, and whether a call
 * throws, come in as parameters.
 */
module Store {
  import opened Wrappers
  import opened Json

  /** The `user: { id, username }` relation included with every message. */
  datatype Author = Author(id: string, username: string)

  datatype Message = Message(
    id: string,
    content: string,
    userId: string,
    roomId: string,
    createdAt: int,
    user: Author)

  /** What the database itself assigns to a created row. */
  datatype Stamp = Stamp(id: string, createdAt: int, username: string)

  /** `take: 50` of the history query. */
  const HistoryLimit: nat := 50

  /**
   * The row `message.create({ data: { content, userId, roomId } })` stores,
   * or None when the call throws: on a backend fault, or because one of the
   * three required string columns was given something other than a string.
   */
  function CreateOutcome(content: Field, userId: Field, roomId: Field, stamp: Stamp, fault: bool): (r: Option<Message>)
    ensures r.Some? <==> !fault && content.Text? && userId.Text? && roomId.Text?
    ensures r.Some? ==> && r.value.content == content.s
                        && r.value.userId == userId.s
                        && r.value.roomId == roomId.s
                        && r.value.user.id == userId.s
  {
    if fault || !content.Text? || !userId.Text? || !roomId.Text? then None
    else Some(Message(stamp.id, content.s, userId.s, roomId.s, stamp.createdAt, Author(userId.s, stamp.username)))
  }

  /**
   * How the database reads a `roomId` value that is not a string, given by
   * its JSON text: as a filter object (such as `{ "contains": "" }`) that
   * selects some rows, or None when it rejects the value.
   */
  type ObjectFilter = string -> Option<Message -> bool>

  /**
   * The rows `where: { roomId }` selects, or None when the query rejects
   * it: an undefined value places no condition at all, a string selects
   * its room, and any other value is read by the database.
   */
  function Selection(roomId: Field, objectFilter: ObjectFilter): (r: Option<Message -> bool>)
    ensures roomId.Undefined? ==> r.Some? && forall m :: r.value(m)
    ensures roomId.Text? ==> r.Some? && forall m :: r.value(m) <==> m.roomId == roomId.s
    ensures roomId.NonText? ==> r == objectFilter(roomId.literal)
  {
    match roomId
    case Undefined => Some((m: Message) => true)
    case Text(id) => Some((m: Message) => m.roomId == id)
    case NonText(literal) => objectFilter(literal)
  }

  /** The rows a selection keeps, in table order. */
  function Where(rows: seq<Message>, sel: Message -> bool): (r: seq<Message>)
    ensures forall m :: m in r ==> sel(m)
    ensures forall m :: sel(m) ==> multiset(r)[m] == multiset(rows)[m]
    ensures forall m :: !sel(m) ==> multiset(r)[m] == 0
  {
    if rows == [] then []
    else
      assert rows == [rows[0]] + rows[1..];
      if sel(rows[0]) then [rows[0]] + Where(rows[1..], sel)
      else Where(rows[1..], sel)
  }

  /** A selection that holds for every row keeps the whole table, in order. */
  lemma {:induction false} SelectAllKeepsEverything(rows: seq<Message>, sel: Message -> bool)
    requires forall m :: sel(m)
    ensures Where(rows, sel) == rows
  {
    if rows != [] {
      SelectAllKeepsEverything(rows[1..], sel);
      assert rows == [rows[0]] + rows[1..];
    }
  }

  /** Oldest first: `orderBy: { createdAt: "asc" }`. */
  predicate Ascending(s: seq<Message>)
  {
    forall i, j :: 0 <= i < j < |s| ==> s[i].createdAt <= s[j].createdAt
  }

  function Insert(m: Message, s: seq<Message>): (r: seq<Message>)
    requires Ascending(s)
    ensures Ascending(r)
    ensures multiset(r) == multiset(s) + multiset{m}
    ensures |r| == |s| + 1
    ensures forall x :: x in r ==> x == m || x in s
  {
    if s == [] || m.createdAt <= s[0].createdAt then [m] + s
    else
      var rest := Insert(m, s[1..]);
      assert s == [s[0]] + s[1..];
      assert forall k :: 0 <= k < |rest| ==> s[0].createdAt <= rest[k].createdAt by {
        forall k | 0 <= k < |rest|
          ensures s[0].createdAt <= rest[k].createdAt
        {
          assert rest[k] in rest;
          if rest[k] != m {
            assert rest[k] in s[1..];
            var j :| 0 <= j < |s| - 1 && s[j + 1] == rest[k];
          }
        }
      }
      [s[0]] + rest
  }

  /** A stable sort by creation time; rows created at the same instant keep table order. */
  function SortByCreatedAt(s: seq<Message>): (r: seq<Message>)
    ensures Ascending(r)
    ensures multiset(r) == multiset(s)
    ensures |r| == |s|
  {
    if s == [] then []
    else
      assert s == [s[0]] + s[1..];
      Insert(s[0], SortByCreatedAt(s[1..]))
  }

  /** What the history query returns when it succeeds: the first 50 selected rows in ascending order. */
  function History(rows: seq<Message>, sel: Message -> bool): (r: seq<Message>)
    ensures |r| <= HistoryLimit && Ascending(r)
    ensures multiset(r) <= multiset(Where(rows, sel))
  {
    var sorted := SortByCreatedAt(Where(rows, sel));
    if |sorted| <= HistoryLimit then sorted
    else
      PrefixOfAscending(sorted, HistoryLimit);
      sorted[..HistoryLimit]
  }

  /**
   * The answer to the history query, or None when it throws: on a backend
   * fault, or because the database rejects the roomId value.
   */
  function FindManyOutcome(rows: seq<Message>, roomId: Field, objectFilter: ObjectFilter, fault: bool): (r: Option<seq<Message>>)
    ensures r.None? <==> fault || Selection(roomId, objectFilter).None?
    ensures r.Some? ==> |r.value| <= HistoryLimit && forall m :: m in r.value ==> Selection(roomId, objectFilter).value(m) && m in rows
    ensures r.Some? && roomId.Text? ==> forall m :: m in r.value ==> m.roomId == roomId.s
  {
    match Selection(roomId, objectFilter)
    case None => None
    case Some(sel) =>
      if fault then None
      else
        HistoryShape(rows, sel);
        Some(History(rows, sel))
  }

  /** A prefix of an ascending sequence is ascending and holds nothing the whole lacks. */
  lemma PrefixOfAscending(s: seq<Message>, n: nat)
    requires Ascending(s) && n <= |s|
    ensures Ascending(s[..n])
    ensures multiset(s[..n]) <= multiset(s)
  {
    assert s == s[..n] + s[n..];
    assert multiset(s) == multiset(s[..n]) + multiset(s[n..]);
  }

  /** The history holds at most 50 messages, all selected, oldest first, none invented. */
  lemma HistoryShape(rows: seq<Message>, sel: Message -> bool)
    ensures |History(rows, sel)| == if |Where(rows, sel)| <= HistoryLimit then |Where(rows, sel)| else HistoryLimit
    ensures Ascending(History(rows, sel))
    ensures multiset(History(rows, sel)) <= multiset(Where(rows, sel))
    ensures forall m :: m in History(rows, sel) ==> sel(m) && m in rows
  {
    var w := Where(rows, sel);
    var sorted := SortByCreatedAt(w);
    var h := History(rows, sel);
    PrefixOfAscending(sorted, |h|);
    assert h == sorted[..|h|];
    forall m | m in h
      ensures sel(m) && m in rows
    {
      assert m in multiset(h);
      assert multiset(w)[m] > 0;
      assert multiset(rows)[m] > 0;
    }
  }

  /** With 50 or fewer selected messages, the history is all of them. */
  lemma HistoryKeepsAllOfSmallRoom(rows: seq<Message>, sel: Message -> bool)
    requires |Where(rows, sel)| <= HistoryLimit
    ensures multiset(History(rows, sel)) == multiset(Where(rows, sel))
  {
    var w := Where(rows, sel);
    assert |SortByCreatedAt(w)| == |multiset(SortByCreatedAt(w))| == |w|;
  }

  /**
   * The history is the OLDEST part of the selection: every selected message
   * left out of it was created no earlier than any message in it.
   */
  lemma HistoryIsOldest(rows: seq<Message>, sel: Message -> bool, m: Message)
    requires m in Where(rows, sel) && m !in History(rows, sel)
    ensures forall h :: h in History(rows, sel) ==> h.createdAt <= m.createdAt
  {
    var w := Where(rows, sel);
    var sorted := SortByCreatedAt(w);
    assert m in multiset(sorted);
    if |sorted| > HistoryLimit {
      assert sorted == sorted[..HistoryLimit] + sorted[HistoryLimit..];
      assert m in sorted[HistoryLimit..];
      var k :| HistoryLimit <= k < |sorted| && sorted[k] == m;
      forall h | h in History(rows, sel)
        ensures h.createdAt <= m.createdAt
      {
        var i :| 0 <= i < HistoryLimit && sorted[i] == h;
      }
    }
  }

  /** In an ascending sequence, a message newer than all others and present once is only at the end. */
  lemma NewestIsLast(s: seq<Message>, m: Message, n: nat)
    requires Ascending(s) && n < |s|
    requires multiset(s)[m] == 1
    requires forall x :: x in s && x != m ==> x.createdAt < m.createdAt
    ensures m !in s[..n]
  {
    var last := s[|s| - 1];
    assert last == m by {
      assert m in multiset(s);
      var j :| 0 <= j < |s| && s[j] == m;
      assert j == |s| - 1 || s[j].createdAt <= s[|s| - 1].createdAt;
      assert last in s;
    }
    var head, tail := s[..n], s[n..];
    assert s == head + tail;
    assert multiset(s) == multiset(head) + multiset(tail);
    assert tail[|tail| - 1] == m;
    assert m in multiset(tail);
    assert multiset(head)[m] == 0;
  }

  /**
   * When more than 50 messages are selected, the single newest of them is
   * not replayed: the query returns the first 50, not the last 50.
   */
  lemma HistoryOmitsNewest(rows: seq<Message>, sel: Message -> bool, m: Message)
    requires |Where(rows, sel)| > HistoryLimit
    requires multiset(Where(rows, sel))[m] == 1
    requires forall x :: x in Where(rows, sel) && x != m ==> x.createdAt < m.createdAt
    ensures m !in History(rows, sel)
  {
    var w := Where(rows, sel);
    var sorted := SortByCreatedAt(w);
    forall x | x in sorted && x != m
      ensures x.createdAt < m.createdAt
    {
      assert x in multiset(w);
    }
    NewestIsLast(sorted, m, HistoryLimit);
  }

  /** The `message` table; rows are kept in the order they were created. */
  class MessageStore {
    var rows: seq<Message>

    constructor ()
      ensures rows == []
    {
      rows := [];
    }

    /** `message.create`: stores and returns the new row, or throws and stores nothing. */
    method Create(content: Field, userId: Field, roomId: Field, stamp: Stamp, fault: bool) returns (r: Option<Message>)
      modifies this
      ensures r == CreateOutcome(content, userId, roomId, stamp, fault)
      ensures rows == old(rows) + if r.Some? then [r.value] else []
    {
      r := CreateOutcome(content, userId, roomId, stamp, fault);
      if r.Some? {
        rows := rows + [r.value];
      }
    }

    /** The history query of src/websocket.ts:93-107; it changes nothing. */
    method FindMany(roomId: Field, objectFilter: ObjectFilter, fault: bool) returns (r: Option<seq<Message>>)
      ensures r == FindManyOutcome(rows, roomId, objectFilter, fault)
    {
      r := FindManyOutcome(rows, roomId, objectFilter, fault);
    }
  }
}
