/** The messages table (internal/db/message.go): per-workspace sequence numbers, the
    paging query, and a client that pages by the last number it has seen. */
module MessageLog {
  import opened Wrappers

  datatype Message = Message(workspaceId: string, role: string, content: string, metadata: Option<string>, no: int)

  datatype Error = InvalidRole | ForeignKeyViolation

  /** The table in insertion order, and the workspaces its foreign key refers to. */
  datatype Table = Table(workspaces: set<string>, rows: seq<Message>)

  predicate ValidRole(role: string) {
    role == "user" || role == "assistant" || role == "tool" || role == "system"
  }

  // ---- queries ----

  /** COALESCE(MAX(seq), -1) over a workspace's rows. */
  function MaxNo(rows: seq<Message>, ws: string): int {
    if rows == [] then -1
    else
      var rest, last := MaxNo(rows[..|rows| - 1], ws), rows[|rows| - 1];
      if last.workspaceId == ws && last.no > rest then last.no else rest
  }

  /** WHERE workspace_id = ws AND seq > since. */
  function Select(rows: seq<Message>, ws: string, since: int): seq<Message> {
    if rows == [] then []
    else
      var last := rows[|rows| - 1];
      Select(rows[..|rows| - 1], ws, since) + if last.workspaceId == ws && last.no > since then [last] else []
  }

  function InsertByNo(m: Message, sorted: seq<Message>): seq<Message> {
    if sorted == [] || m.no >= sorted[|sorted| - 1].no then sorted + [m]
    else InsertByNo(m, sorted[..|sorted| - 1]) + [sorted[|sorted| - 1]]
  }

  /** ORDER BY seq ASC. */
  function OrderByNo(rows: seq<Message>): seq<Message> {
    if rows == [] then [] else InsertByNo(rows[|rows| - 1], OrderByNo(rows[..|rows| - 1]))
  }

  function Limit(rows: seq<Message>, limit: int): seq<Message>
    requires limit >= 0
  {
    if |rows| <= limit then rows else rows[..limit]
  }

  const DEFAULT_LIMIT := 500

  function Page(t: Table, ws: string, since: int, limit: int): seq<Message> {
    Limit(OrderByNo(Select(t.rows, ws, since)), Cap(limit))
  }

  /** A workspace's whole log, as the table holds it. */
  function LogOf(rows: seq<Message>, ws: string): seq<Message> {
    if rows == [] then []
    else
      var last := rows[|rows| - 1];
      LogOf(rows[..|rows| - 1], ws) + if last.workspaceId == ws then [last] else []
  }

  // ---- changes ----

  function Created(t: Table, ws: string, role: string, content: string, metadata: Option<string>): Table {
    if !ValidRole(role) || ws !in t.workspaces then t
    else t.(rows := t.rows + [Message(ws, role, content, metadata, MaxNo(t.rows, ws) + 1)])
  }

  function Without(rows: seq<Message>, ws: string): seq<Message> {
    if rows == [] then []
    else
      var last := rows[|rows| - 1];
      Without(rows[..|rows| - 1], ws) + if last.workspaceId == ws then [] else [last]
  }

  datatype Change =
    | AddWorkspace(ws: string)
    | DropWorkspace(ws: string)
    | Create(ws: string, role: string, content: string, metadata: Option<string>)
    | DeleteMessages(ws: string)

  function Changed(t: Table, c: Change): Table {
    match c
    case AddWorkspace(ws) => t.(workspaces := t.workspaces + {ws})
    case DropWorkspace(ws) => Table(t.workspaces - {ws}, Without(t.rows, ws))
    case Create(ws, role, content, metadata) => Created(t, ws, role, content, metadata)
    case DeleteMessages(ws) => t.(rows := Without(t.rows, ws))
  }

  /** Any interleaving of writers and deletes is a sequence of transactions. */
  function After(t: Table, cs: seq<Change>): Table {
    if cs == [] then t else Changed(After(t, cs[..|cs| - 1]), cs[|cs| - 1])
  }

  // ---- the numbering ----

  ghost predicate GapFree(rows: seq<Message>) {
    forall ws, i :: 0 <= i < |LogOf(rows, ws)| ==> LogOf(rows, ws)[i].no == i && LogOf(rows, ws)[i].workspaceId == ws
  }

  lemma LogOfAppend(rows: seq<Message>, m: Message, ws: string)
    ensures LogOf(rows + [m], ws) == LogOf(rows, ws) + if m.workspaceId == ws then [m] else []
  {
    assert (rows + [m])[..|rows|] == rows;
  }

  lemma {:induction false} MaxIsLast(rows: seq<Message>, ws: string)
    requires GapFree(rows)
    ensures MaxNo(rows, ws) == |LogOf(rows, ws)| - 1
  {
    if rows != [] {
      var rest, last := rows[..|rows| - 1], rows[|rows| - 1];
      assert rest + [last] == rows;
      GapFreePrefix(rest, last);
      MaxIsLast(rest, ws);
      if last.workspaceId == ws {
        LogOfAppend(rest, last, ws);
        assert LogOf(rows, ws)[|LogOf(rest, ws)|] == last;
      }
    }
  }

  lemma GapFreePrefix(rows: seq<Message>, m: Message)
    requires GapFree(rows + [m])
    ensures GapFree(rows)
  {
    forall ws, i | 0 <= i < |LogOf(rows, ws)|
      ensures LogOf(rows, ws)[i].no == i && LogOf(rows, ws)[i].workspaceId == ws
    {
      LogOfAppend(rows, m, ws);
      assert LogOf(rows + [m], ws)[i] == LogOf(rows, ws)[i];
    }
  }

  lemma CreateKeepsGapFree(t: Table, ws: string, role: string, content: string, metadata: Option<string>)
    requires GapFree(t.rows)
    ensures GapFree(Created(t, ws, role, content, metadata).rows)
  {
    MaxIsLast(t.rows, ws);
    var m := Message(ws, role, content, metadata, MaxNo(t.rows, ws) + 1);
    forall other, i | 0 <= i < |LogOf(t.rows + [m], other)|
      ensures LogOf(t.rows + [m], other)[i].no == i && LogOf(t.rows + [m], other)[i].workspaceId == other
    {
      LogOfAppend(t.rows, m, other);
    }
  }

  lemma {:induction false} LogOfWithout(rows: seq<Message>, gone: string, ws: string)
    ensures LogOf(Without(rows, gone), ws) == if ws == gone then [] else LogOf(rows, ws)
  {
    if rows != [] {
      var rest, last := rows[..|rows| - 1], rows[|rows| - 1];
      LogOfWithout(rest, gone, ws);
      if last.workspaceId != gone {
        LogOfAppend(Without(rest, gone), last, ws);
      } else {
        assert Without(rest, gone) + [] == Without(rest, gone);
      }
    }
  }

  lemma ChangeKeepsGapFree(t: Table, c: Change)
    requires GapFree(t.rows)
    ensures GapFree(Changed(t, c).rows)
  {
    match c
    case AddWorkspace(_) =>
    case Create(ws, role, content, metadata) => CreateKeepsGapFree(t, ws, role, content, metadata);
    case DropWorkspace(gone) => forall ws { LogOfWithout(t.rows, gone, ws); }
    case DeleteMessages(gone) => forall ws { LogOfWithout(t.rows, gone, ws); }
  }

  /** Under any interleaving each workspace's rows carry exactly 0..n-1, in insertion
      order, and the last number is n-1. */
  lemma {:induction false} NumbersAreGapFree(t: Table, cs: seq<Change>, ws: string)
    requires t.rows == []
    ensures GapFree(After(t, cs).rows)
    ensures MaxNo(After(t, cs).rows, ws) == |LogOf(After(t, cs).rows, ws)| - 1
  {
    if cs != [] {
      NumbersAreGapFree(t, cs[..|cs| - 1], ws);
      ChangeKeepsGapFree(After(t, cs[..|cs| - 1]), cs[|cs| - 1]);
    }
    MaxIsLast(After(t, cs).rows, ws);
  }

  /** A change to one workspace leaves every other log alone; a message only extends its own. */
  lemma LogsAreIndependent(t: Table, c: Change, ws: string)
    requires GapFree(t.rows)
    ensures c.ws != ws ==> LogOf(Changed(t, c).rows, ws) == LogOf(t.rows, ws)
    ensures c.Create? ==> LogOf(t.rows, ws) <= LogOf(Changed(t, c).rows, ws)
    ensures c.Create? && c.ws == ws && ValidRole(c.role) && ws in t.workspaces ==>
      LogOf(Changed(t, c).rows, ws)
      == LogOf(t.rows, ws) + [Message(ws, c.role, c.content, c.metadata, |LogOf(t.rows, ws)|)]
    ensures c.DropWorkspace? || c.DeleteMessages? ==> LogOf(Changed(t, c).rows, c.ws) == []
  {
    MaxIsLast(t.rows, ws);
    match c
    case AddWorkspace(_) =>
    case Create(other, role, content, metadata) =>
      LogOfAppend(t.rows, Message(other, role, content, metadata, MaxNo(t.rows, other) + 1), ws);
    case DropWorkspace(gone) => LogOfWithout(t.rows, gone, ws); LogOfWithout(t.rows, gone, gone);
    case DeleteMessages(gone) => LogOfWithout(t.rows, gone, ws); LogOfWithout(t.rows, gone, gone);
  }

  // ---- pages ----

  predicate SortedByNo(rows: seq<Message>) {
    forall i, j :: 0 <= i < j < |rows| ==> rows[i].no <= rows[j].no
  }

  lemma {:induction false} OrderOfSorted(rows: seq<Message>)
    requires SortedByNo(rows)
    ensures OrderByNo(rows) == rows
  {
    if rows != [] {
      OrderOfSorted(rows[..|rows| - 1]);
      assert rows[..|rows| - 1] + [rows[|rows| - 1]] == rows;
    }
  }


  lemma TailGrows(log: seq<Message>, last: Message, since: int)
    requires last.no == |log|
    ensures (log + [last])[From(since, |log| + 1)..] ==
            log[From(since, |log|)..] + if last.no > since then [last] else []
  {
  }

  lemma LastNumber(rows: seq<Message>, last: Message)
    requires GapFree(rows + [last])
    ensures last.no == |LogOf(rows, last.workspaceId)|
  {
    var log := LogOf(rows, last.workspaceId);
    LogOfAppend(rows, last, last.workspaceId);
    assert LogOf(rows + [last], last.workspaceId)[|log|] == last;
  }

  /** The rows past `since` are a tail of the log. */
  lemma {:induction false} SelectIsTail(rows: seq<Message>, ws: string, since: int)
    requires GapFree(rows)
    ensures Select(rows, ws, since) == LogOf(rows, ws)[From(since, |LogOf(rows, ws)|)..]
  {
    if rows != [] {
      var rest, last := rows[..|rows| - 1], rows[|rows| - 1];
      assert rest + [last] == rows;
      GapFreePrefix(rest, last);
      SelectIsTail(rest, ws, since);
      LogOfAppend(rest, last, ws);
      if last.workspaceId == ws {
        LastNumber(rest, last);
        TailGrows(LogOf(rest, ws), last, since);
      } else {
        assert Select(rows, ws, since) == Select(rest, ws, since);
        assert LogOf(rows, ws) == LogOf(rest, ws);
      }
    }
  }

  lemma TailIsSorted(rows: seq<Message>, ws: string, from: nat)
    requires GapFree(rows) && from <= |LogOf(rows, ws)|
    ensures SortedByNo(LogOf(rows, ws)[from..])
  {
    var log := LogOf(rows, ws);
    assert forall i :: 0 <= i < |log| ==> log[i].no == i;
  }

  lemma LimitOfTail(log: seq<Message>, from: nat, cap: nat)
    requires from <= |log|
    ensures Limit(log[from..], cap) == log[from..Least(from + cap, |log|)]
  {
  }

  function From(since: int, length: nat): nat {
    Least(if since < 0 then 0 else since + 1, length)
  }

  function Cap(limit: int): nat {
    if limit <= 0 then DEFAULT_LIMIT else limit
  }

  /** The part of a log that a page past `since` shows. */
  function Slice(log: seq<Message>, since: int, limit: int): seq<Message> {
    log[From(since, |log|)..Least(From(since, |log|) + Cap(limit), |log|)]
  }

  lemma TailIsOrdered(rows: seq<Message>, ws: string, from: nat)
    requires GapFree(rows) && from <= |LogOf(rows, ws)|
    ensures OrderByNo(LogOf(rows, ws)[from..]) == LogOf(rows, ws)[from..]
  {
    TailIsSorted(rows, ws, from);
    OrderOfSorted(LogOf(rows, ws)[from..]);
  }

  /** What the query makes of the rows it selected. */
  lemma SliceOf(selected: seq<Message>, log: seq<Message>, since: int, limit: int)
    requires selected == log[From(since, |log|)..] && OrderByNo(selected) == selected
    ensures Limit(OrderByNo(selected), Cap(limit)) == Slice(log, since, limit)
  {
    LimitOfTail(log, From(since, |log|), Cap(limit));
  }

  /** A page is the slice of the log that starts right after `since`. */
  lemma PageIsSlice(t: Table, ws: string, since: int, limit: int)
    requires GapFree(t.rows)
    ensures Page(t, ws, since, limit) == Slice(LogOf(t.rows, ws), since, limit)
  {
    SelectIsTail(t.rows, ws, since);
    TailIsOrdered(t.rows, ws, From(since, |LogOf(t.rows, ws)|));
    SliceOf(Select(t.rows, ws, since), LogOf(t.rows, ws), since, limit);
  }

  // ---- a paging client ----

  datatype Client = Client(since: int, got: seq<Message>)

  function Fetch(t: Table, ws: string, c: Client, limit: int): Client {
    var page := Page(t, ws, c.since, limit);
    if page == [] then c else Client(page[|page| - 1].no, c.got + page)
  }

  datatype Event = Write(change: Change) | Fetches(limit: int)

  function Play(t: Table, ws: string, c: Client, es: seq<Event>): (Table, Client) {
    if es == [] then (t, c)
    else
      var before, last := Play(t, ws, c, es[..|es| - 1]), es[|es| - 1];
      match last
      case Write(change) => (Changed(before.0, change), before.1)
      case Fetches(limit) => (before.0, Fetch(before.0, ws, before.1, limit))
  }

  /** No delete of the client's own workspace. */
  predicate KeepsLog(es: seq<Event>, ws: string) {
    forall i :: 0 <= i < |es| && es[i].Write? && es[i].change.ws == ws ==>
      es[i].change.Create? || es[i].change.AddWorkspace?
  }

  predicate Following(t: Table, ws: string, c: Client) {
    c.since == |c.got| - 1 && c.got <= LogOf(t.rows, ws)
  }

  lemma FetchFollows(t: Table, ws: string, c: Client, limit: int)
    requires GapFree(t.rows) && Following(t, ws, c)
    ensures Following(t, ws, Fetch(t, ws, c, limit))
    ensures |c.got| < |LogOf(t.rows, ws)| <==> Page(t, ws, c.since, limit) != []
  {
    PageIsSlice(t, ws, c.since, limit);
    var log, page := LogOf(t.rows, ws), Page(t, ws, c.since, limit);
    if page != [] {
      assert c.got == log[..|c.got|];
      assert c.got + page == log[..|c.got| + |page|];
      assert page[|page| - 1] == log[|c.got| + |page| - 1];
    }
  }

  /** Whatever is written between its pages, a client that pages by the last number it has
      seen holds a prefix of the log: no gap, no repeat. */
  lemma {:induction false} ClientHoldsPrefix(t: Table, ws: string, es: seq<Event>)
    requires t.rows == [] && KeepsLog(es, ws)
    ensures var r := Play(t, ws, Client(-1, []), es); GapFree(r.0.rows) && Following(r.0, ws, r.1)
  {
    if es != [] {
      var earlier, last := es[..|es| - 1], es[|es| - 1];
      ClientHoldsPrefix(t, ws, earlier);
      var before := Play(t, ws, Client(-1, []), earlier);
      match last
      case Write(change) =>
        ChangeKeepsGapFree(before.0, change);
        LogsAreIndependent(before.0, change, ws);
      case Fetches(limit) => FetchFollows(before.0, ws, before.1, limit);
    }
  }

  /** Paging until an empty page, on a log nobody writes to. */
  ghost function Catchup(t: Table, ws: string, c: Client, limit: int): Client
    requires GapFree(t.rows) && Following(t, ws, c)
    decreases |LogOf(t.rows, ws)| - |c.got|
  {
    FetchFollows(t, ws, c, limit);
    if Page(t, ws, c.since, limit) == [] then c else Catchup(t, ws, Fetch(t, ws, c, limit), limit)
  }

  /** It ends, whatever the page size, with the whole log. */
  lemma {:induction false} CatchupGetsAll(t: Table, ws: string, c: Client, limit: int)
    requires GapFree(t.rows) && Following(t, ws, c)
    ensures Catchup(t, ws, c, limit).got == LogOf(t.rows, ws)
    decreases |LogOf(t.rows, ws)| - |c.got|
  {
    FetchFollows(t, ws, c, limit);
    if Page(t, ws, c.since, limit) == [] {
      assert c.got == LogOf(t.rows, ws)[..|c.got|];
    } else {
      CatchupGetsAll(t, ws, Fetch(t, ws, c, limit), limit);
    }
  }

  // ---- the code ----

  class MessageStore {
    var workspaces: set<string>
    var rows: seq<Message>

    constructor (workspaces: set<string>)
      ensures State() == Table(workspaces, [])
    {
      this.workspaces, rows := workspaces, [];
    }

    ghost function State(): Table
      reads this
    {
      Table(workspaces, rows)
    }

    /** One transaction: the next number, then the insert. */
    method CreateMessage(ws: string, role: string, content: string, metadata: Option<string>)
      returns (r: Result<Message, Error>)
      requires GapFree(rows)
      modifies this`rows
      ensures State() == Created(old(State()), ws, role, content, metadata) && GapFree(rows)
      ensures r.Err? <==> role !in {"user", "assistant", "tool", "system"} || ws !in workspaces
      ensures r.Err? ==> r.error == (if role !in {"user", "assistant", "tool", "system"} then InvalidRole
                                     else ForeignKeyViolation)
      ensures r.Ok? ==> r.value == Message(ws, role, content, metadata, |LogOf(old(rows), ws)|) && r.value in rows
    {
      if role != "user" && role != "assistant" && role != "tool" && role != "system" {
        return Err(InvalidRole);
      }
      var next := MaxNo(rows, ws) + 1;
      if ws !in workspaces {
        return Err(ForeignKeyViolation);
      }
      MaxIsLast(rows, ws);
      CreateKeepsGapFree(State(), ws, role, content, metadata);
      var m := Message(ws, role, content, metadata, next);
      rows := rows + [m];
      return Ok(m);
    }

    /** scanMessages: the query's rows, one at a time. */
    method ScanMessages(result: seq<Message>) returns (out: seq<Message>)
      ensures out == result
    {
      out := [];
      for i := 0 to |result|
        invariant out == result[..i]
      {
        out := out + [result[i]];
      }
    }

    method ListMessages(ws: string, since: int, limit: int) returns (out: seq<Message>)
      requires GapFree(rows)
      ensures var log := LogOf(rows, ws);
              out == log[From(since, |log|)..Least(From(since, |log|) + if limit <= 0 then 500 else limit, |log|)]
    {
      var cap := limit;
      if cap <= 0 {
        cap := 500;
      }
      PageIsSlice(State(), ws, since, limit);
      out := ScanMessages(Limit(OrderByNo(Select(rows, ws, since)), cap));
    }

    method ListAllMessagesByWorkspace(ws: string) returns (out: seq<Message>)
      requires GapFree(rows)
      ensures out == LogOf(rows, ws)
    {
      SelectIsTail(rows, ws, -1);
      OrderedLog(rows, ws);
      out := ScanMessages(OrderByNo(LogOf(rows, ws)));
    }

    method LastSeq(ws: string) returns (last: int)
      requires GapFree(rows)
      ensures last == |LogOf(rows, ws)| - 1
    {
      MaxIsLast(rows, ws);
      last := MaxNo(rows, ws);
    }

    method DeleteMessagesByWorkspace(ws: string) returns (deleted: nat)
      requires GapFree(rows)
      modifies this`rows
      ensures State() == Changed(old(State()), DeleteMessages(ws)) && GapFree(rows)
      ensures deleted == |LogOf(old(rows), ws)|
      ensures forall other :: LogOf(rows, other) == if other == ws then [] else LogOf(old(rows), other)
    {
      ChangeKeepsGapFree(State(), DeleteMessages(ws));
      WithoutCounts(rows, ws);
      forall other { LogOfWithout(rows, ws, other); }
      deleted := |rows| - |Without(rows, ws)|;
      rows := Without(rows, ws);
    }
  }

  lemma OrderedLog(rows: seq<Message>, ws: string)
    requires GapFree(rows)
    ensures OrderByNo(LogOf(rows, ws)) == LogOf(rows, ws)
  {
    OrderOfSorted(LogOf(rows, ws));
  }

  lemma {:induction false} WithoutCounts(rows: seq<Message>, ws: string)
    ensures |Without(rows, ws)| + |LogOf(rows, ws)| == |rows|
  {
    if rows != [] {
      WithoutCounts(rows[..|rows| - 1], ws);
    }
  }
}
