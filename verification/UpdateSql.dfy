/** UpdateWorkspace as a compiler (internal/db/workspace.go): a patch becomes the text of an
    UPDATE statement plus positional arguments. A small SQL engine reads the text back, and
    what it then does to the stored row is what the patch means; the text itself is said word
    for word, term by term, for every patch. */
module UpdateSql {
  import opened Wrappers
  import opened Status
  import opened WorkspaceRow
  import Strings = Text

  datatype Column =
    | UpdatedAt
    | StatusCol
    | WorktreePath
    | TargetRef
    | PendingMergeCol
    | ProcessPid
    | Model
    | StartedAt
    | CompletedAt
    | TokensIn
    | TokensOut
    | CostUsd
    | Orchestrator

  datatype Value =
    | Null
    | Text(s: string)
    | StatusText(st: Status)
    | Json(pm: PendingMerge)
    | Whole(n: int)
    | Floating(r: real)
    | Boolean(b: bool)
    | Time(t: int)

  /** The right-hand sides the engine understands. */
  datatype Rhs = Placeholder | NullLiteral | CurrentTimestamp

  datatype SqlError = BadStatement | BadArguments | NotFound

  // ---- the SQL text ----

  function Name(c: Column): string {
    match c
    case UpdatedAt => "updated_at"
    case StatusCol => "status"
    case WorktreePath => "worktree_path"
    case TargetRef => "target_ref"
    case PendingMergeCol => "pending_merge"
    case ProcessPid => "process_pid"
    case Model => "model"
    case StartedAt => "started_at"
    case CompletedAt => "completed_at"
    case TokensIn => "tokens_in"
    case TokensOut => "tokens_out"
    case CostUsd => "cost_usd"
    case Orchestrator => "orchestrator"
  }

  function ParseName(s: string): Option<Column> {
    if s == "updated_at" then Some(UpdatedAt)
    else if s == "status" then Some(StatusCol)
    else if s == "worktree_path" then Some(WorktreePath)
    else if s == "target_ref" then Some(TargetRef)
    else if s == "pending_merge" then Some(PendingMergeCol)
    else if s == "process_pid" then Some(ProcessPid)
    else if s == "model" then Some(Model)
    else if s == "started_at" then Some(StartedAt)
    else if s == "completed_at" then Some(CompletedAt)
    else if s == "tokens_in" then Some(TokensIn)
    else if s == "tokens_out" then Some(TokensOut)
    else if s == "cost_usd" then Some(CostUsd)
    else if s == "orchestrator" then Some(Orchestrator)
    else None
  }

  function RhsText(r: Rhs): string {
    match r
    case Placeholder => " = ?"
    case NullLiteral => " = NULL"
    case CurrentTimestamp => " = CURRENT_TIMESTAMP"
  }

  predicate EndsWith(s: string, suffix: string) {
    |suffix| <= |s| && s[|s| - |suffix|..] == suffix
  }

  function Chop(s: string, suffix: string): string
    requires EndsWith(s, suffix)
  {
    s[..|s| - |suffix|]
  }

  function ParseFragment(f: string): Option<(Column, Rhs)> {
    if EndsWith(f, RhsText(Placeholder)) then WithRhs(ParseName(Chop(f, RhsText(Placeholder))), Placeholder)
    else if EndsWith(f, RhsText(NullLiteral)) then WithRhs(ParseName(Chop(f, RhsText(NullLiteral))), NullLiteral)
    else if EndsWith(f, RhsText(CurrentTimestamp)) then
      WithRhs(ParseName(Chop(f, RhsText(CurrentTimestamp))), CurrentTimestamp)
    else None
  }

  function WithRhs(c: Option<Column>, r: Rhs): Option<(Column, Rhs)> {
    if c.Some? then Some((c.value, r)) else None
  }

  const SEPARATOR := ", "

  /** How the engine reads a list back. */
  function SplitList(s: string): (parts: seq<string>)
    ensures |parts| > 0
  {
    if s == "" then [""]
    else if |s| >= 2 && s[0] == ',' && s[1] == ' ' then [""] + SplitList(s[2..])
    else
      var rest := SplitList(s[1..]);
      [[s[0]] + rest[0]] + rest[1..]
  }

  const HEAD := "UPDATE workspaces SET "
  const TAIL := " WHERE id = ?;"

  function QueryText(sets: seq<string>): string {
    HEAD + Strings.Join(sets, SEPARATOR) + TAIL
  }

  // ---- the engine ----

  type Row = map<Column, Value>

  function ParseFragments(fs: seq<string>): Option<seq<(Column, Rhs)>> {
    if fs == [] then Some([])
    else
      var first := ParseFragment(fs[0]);
      var rest := ParseFragments(fs[1..]);
      if first.Some? && rest.Some? then Some([first.value] + rest.value) else None
  }

  function ParseUpdate(query: string): Option<seq<(Column, Rhs)>> {
    if |HEAD| + |TAIL| <= |query| && query[..|HEAD|] == HEAD && EndsWith(query, TAIL)
    then ParseFragments(SplitList(Chop(query, TAIL)[|HEAD|..]))
    else None
  }

  /** Assigns from left to right; each placeholder takes the next argument.
      None when the placeholders and the arguments do not come out even. */
  function Assign(row: Row, terms: seq<(Column, Rhs)>, args: seq<Value>, now: int): Option<Row>
    decreases |terms|
  {
    if terms == [] then if args == [] then Some(row) else None
    else match terms[0].1
      case Placeholder =>
        if args == [] then None else Assign(row[terms[0].0 := args[0]], terms[1..], args[1..], now)
      case NullLiteral => Assign(row[terms[0].0 := Null], terms[1..], args, now)
      case CurrentTimestamp => Assign(row[terms[0].0 := Time(now)], terms[1..], args, now)
  }

  /** The last argument binds the id of the WHERE clause; an unknown id changes no row. */
  function Execute(table: map<string, Row>, query: string, args: seq<Value>, now: int)
    : Result<map<string, Row>, SqlError>
  {
    var terms := ParseUpdate(query);
    if terms.None? then Err(BadStatement)
    else if args == [] || !args[|args| - 1].Text? then Err(BadArguments)
    else
      var id := args[|args| - 1].s;
      if id !in table then Err(NotFound)
      else
        var row := Assign(table[id], terms.value, args[..|args| - 1], now);
        if row.None? then Err(BadArguments) else Ok(table[id := row.value])
  }

  // ---- the compiler's specification, column by column ----

  datatype Change = Keep | ToNull | To(v: Value)

  /** What a patch does to one column. */
  function ColumnChange(p: Patch, c: Column): Change {
    match c
    case UpdatedAt => Keep
    case StatusCol => if p.status.Some? then To(StatusText(p.status.value)) else Keep
    case WorktreePath => if p.worktreePath.Some? then To(Text(p.worktreePath.value)) else Keep
    case TargetRef => if p.targetRef.Some? then To(Text(p.targetRef.value)) else Keep
    case PendingMergeCol =>
      if p.clearPendingMerge then ToNull else if p.pendingMerge.Some? then To(Json(p.pendingMerge.value)) else Keep
    case ProcessPid => if p.processPid.Some? then To(Whole(p.processPid.value)) else Keep
    case Model => if p.model.Some? then To(Text(p.model.value)) else Keep
    case StartedAt => if p.startedAt.Some? then To(Time(p.startedAt.value)) else Keep
    case CompletedAt => if p.completedAt.Some? then To(Time(p.completedAt.value)) else Keep
    case TokensIn => if p.tokensIn.Some? then To(Whole(p.tokensIn.value)) else Keep
    case TokensOut => if p.tokensOut.Some? then To(Whole(p.tokensOut.value)) else Keep
    case CostUsd => if p.costUsd.Some? then To(Floating(p.costUsd.value)) else Keep
    case Orchestrator => if p.orchestrator.Some? then To(Boolean(p.orchestrator.value)) else Keep
  }

  /** The order in which setClause visits the columns, in groups. */
  const PLACE: seq<Column> := [StatusCol, WorktreePath, TargetRef]
  const PROGRESS: seq<Column> := [PendingMergeCol, ProcessPid, Model]
  const TIMES: seq<Column> := [StartedAt, CompletedAt, TokensIn]
  const TOTALS: seq<Column> := [TokensOut, CostUsd, Orchestrator]
  const ORDER: seq<Column> := PLACE + PROGRESS + TIMES + TOTALS

  function FragmentsFor(p: Patch, c: Column): seq<string> {
    match ColumnChange(p, c)
    case Keep => []
    case ToNull => [Name(c) + RhsText(NullLiteral)]
    case To(_) => [Name(c) + RhsText(Placeholder)]
  }

  function ArgsFor(p: Patch, c: Column): seq<Value> {
    match ColumnChange(p, c)
    case To(v) => [v]
    case _ => []
  }

  function Fragments(p: Patch, cs: seq<Column>): seq<string> {
    if cs == [] then [] else FragmentsFor(p, cs[0]) + Fragments(p, cs[1..])
  }

  function Args(p: Patch, cs: seq<Column>): seq<Value> {
    if cs == [] then [] else ArgsFor(p, cs[0]) + Args(p, cs[1..])
  }

  // ---- rows as stored records ----

  function Stored(ws: Workspace, c: Column): Value {
    match c
    case UpdatedAt => Time(ws.updatedAt)
    case StatusCol => StatusText(ws.status)
    case WorktreePath => Text(ws.worktreePath)
    case TargetRef => Text(ws.targetRef)
    case PendingMergeCol => if ws.pendingMerge.Some? then Json(ws.pendingMerge.value) else Null
    case ProcessPid => if ws.processPid.Some? then Whole(ws.processPid.value) else Null
    case Model => Text(ws.model)
    case StartedAt => if ws.startedAt.Some? then Time(ws.startedAt.value) else Null
    case CompletedAt => if ws.completedAt.Some? then Time(ws.completedAt.value) else Null
    case TokensIn => Whole(ws.tokensIn)
    case TokensOut => Whole(ws.tokensOut)
    case CostUsd => Floating(ws.costUsd)
    case Orchestrator => Boolean(ws.orchestrator)
  }

  ghost predicate Represents(row: Row, ws: Workspace) {
    forall c: Column :: c in row && row[c] == Stored(ws, c)
  }

  // ---- reading the text back ----

  predicate CommaFree(s: string) {
    ',' !in s
  }

  lemma NamesReadBack(c: Column)
    ensures ParseName(Name(c)) == Some(c)
    ensures CommaFree(Name(c))
  {
  }

  lemma RhsReadsBack(name: string, r: Rhs)
    ensures ParseFragment(name + RhsText(r)) == WithRhs(ParseName(name), r)
  {
    var f := name + RhsText(r);
    assert Chop(f, RhsText(r)) == name;
    assert f[|f| - 1] == RhsText(r)[|RhsText(r)| - 1];
    assert !r.Placeholder? ==> f[|f| - 1] != RhsText(Placeholder)[3];
    assert r.CurrentTimestamp? ==> f[|f| - 1] != RhsText(NullLiteral)[6];
  }

  lemma FragmentReadsBack(c: Column, r: Rhs)
    ensures ParseFragment(Name(c) + RhsText(r)) == Some((c, r))
    ensures CommaFree(Name(c) + RhsText(r))
  {
    NamesReadBack(c);
    RhsReadsBack(Name(c), r);
  }

  lemma {:induction false} ListFirst(f: string, rest: string)
    requires CommaFree(f)
    ensures SplitList(f + ", " + rest) == [f] + SplitList(rest)
  {
    var s := f + ", " + rest;
    if f == "" {
      assert s[2..] == rest;
    } else {
      assert s[0] == f[0] && f[0] in f;
      assert s[1..] == f[1..] + ", " + rest;
      ListFirst(f[1..], rest);
      assert [f[0]] + f[1..] == f;
    }
  }

  lemma {:induction false} ListOnly(f: string)
    requires CommaFree(f)
    ensures SplitList(f) == [f]
  {
    if f != "" {
      assert f[0] in f;
      ListOnly(f[1..]);
      assert [f[0]] + f[1..] == f;
    }
  }

  lemma {:induction false} ListJoined(parts: seq<string>)
    requires parts != [] && forall f :: f in parts ==> CommaFree(f)
    ensures SplitList(Strings.Join(parts, SEPARATOR)) == parts
  {
    if |parts| == 1 {
      ListOnly(parts[0]);
    } else {
      ListJoined(parts[1..]);
      ListFirst(parts[0], Strings.Join(parts[1..], SEPARATOR));
    }
  }

  /** What the engine reads out of the fragments of one column, and of several. */
  function TermsFor(p: Patch, c: Column): seq<(Column, Rhs)> {
    match ColumnChange(p, c)
    case Keep => []
    case ToNull => [(c, NullLiteral)]
    case To(_) => [(c, Placeholder)]
  }

  function Terms(p: Patch, cs: seq<Column>): seq<(Column, Rhs)> {
    if cs == [] then [] else TermsFor(p, cs[0]) + Terms(p, cs[1..])
  }

  ghost predicate ReadsBack(fs: seq<string>, terms: seq<(Column, Rhs)>) {
    ParseFragments(fs) == Some(terms) && forall i :: 0 <= i < |fs| ==> CommaFree(fs[i])
  }

  lemma ConsReadsBack(f: string, c: Column, r: Rhs, fs: seq<string>, terms: seq<(Column, Rhs)>)
    requires CommaFree(f) && ParseFragment(f) == Some((c, r)) && ReadsBack(fs, terms)
    ensures ReadsBack([f] + fs, [(c, r)] + terms)
  {
    assert ([f] + fs)[1..] == fs;
  }

  lemma {:induction false} FragmentsReadBack(p: Patch, cs: seq<Column>)
    ensures ReadsBack(Fragments(p, cs), Terms(p, cs))
  {
    if cs != [] {
      FragmentsReadBack(p, cs[1..]);
      var c, fs, terms := cs[0], Fragments(p, cs[1..]), Terms(p, cs[1..]);
      match ColumnChange(p, c)
      case Keep =>
        assert [] + fs == fs && [] + terms == terms;
      case ToNull =>
        FragmentReadsBack(c, NullLiteral);
        ConsReadsBack(Name(c) + RhsText(NullLiteral), c, NullLiteral, fs, terms);
      case To(_) =>
        FragmentReadsBack(c, Placeholder);
        ConsReadsBack(Name(c) + RhsText(Placeholder), c, Placeholder, fs, terms);
    }
  }

  const TOUCH := Name(UpdatedAt) + RhsText(CurrentTimestamp)

  lemma ListReadsBack(fs: seq<string>, terms: seq<(Column, Rhs)>)
    requires fs != [] && ReadsBack(fs, terms)
    ensures ParseUpdate(QueryText(fs)) == Some(terms)
  {
    forall f | f in fs ensures CommaFree(f) {
      var i :| 0 <= i < |fs| && fs[i] == f;
    }
    ListJoined(fs);
    var query := QueryText(fs);
    assert Chop(query, TAIL) == HEAD + Strings.Join(fs, SEPARATOR);
    assert (HEAD + Strings.Join(fs, SEPARATOR))[|HEAD|..] == Strings.Join(fs, SEPARATOR);
    assert query[..|HEAD|] == HEAD;
  }

  lemma QueryReadsBack(p: Patch)
    ensures ParseUpdate(QueryText([TOUCH] + Fragments(p, ORDER)))
         == Some([(UpdatedAt, CurrentTimestamp)] + Terms(p, ORDER))
  {
    FragmentsReadBack(p, ORDER);
    FragmentReadsBack(UpdatedAt, CurrentTimestamp);
    ConsReadsBack(TOUCH, UpdatedAt, CurrentTimestamp, Fragments(p, ORDER), Terms(p, ORDER));
    ListReadsBack([TOUCH] + Fragments(p, ORDER), [(UpdatedAt, CurrentTimestamp)] + Terms(p, ORDER));
  }

  // ---- executing it ----

  function NewValue(change: Change, current: Value): Value {
    match change
    case Keep => current
    case ToNull => Null
    case To(v) => v
  }

  ghost predicate Changes(row: Row, p: Patch, cs: seq<Column>, out: Row) {
    forall c: Column :: c in row && c in out
      && out[c] == (if c in cs then NewValue(ColumnChange(p, c), row[c]) else row[c])
  }

  lemma {:induction false} AssignTerms(row: Row, p: Patch, cs: seq<Column>, now: int)
    requires forall c: Column :: c in row
    requires forall i, j :: 0 <= i < j < |cs| ==> cs[i] != cs[j]
    ensures var out := Assign(row, Terms(p, cs), Args(p, cs), now);
            out.Some? && Changes(row, p, cs, out.value)
  {
    if cs != [] {
      var c, terms, args := cs[0], Terms(p, cs[1..]), Args(p, cs[1..]);
      var change := ColumnChange(p, c);
      var next := if change.Keep? then row else row[c := NewValue(change, row[c])];
      AssignTerms(next, p, cs[1..], now);
      match change {
        case Keep =>
          assert [] + terms == terms && [] + args == args;
        case ToNull =>
          assert ([(c, NullLiteral)] + terms)[1..] == terms && [] + args == args;
        case To(v) =>
          assert ([(c, Placeholder)] + terms)[1..] == terms && ([v] + args)[1..] == args;
      }
      assert c !in cs[1..];
      assert forall d :: d in cs <==> d == c || d in cs[1..];
    }
  }

  lemma StoredAfterPatch(p: Patch, ws: Workspace, now: int, c: Column)
    ensures Stored(Applied(p, ws, now), c)
         == if c == UpdatedAt then Time(now) else NewValue(ColumnChange(p, c), Stored(ws, c))
  {
  }

  lemma OrderCoversAllColumns(c: Column)
    ensures c in ORDER <==> c != UpdatedAt
    ensures forall i, j :: 0 <= i < j < |ORDER| ==> ORDER[i] != ORDER[j]
  {
    assert ORDER[0] == StatusCol && ORDER[1] == WorktreePath && ORDER[2] == TargetRef && ORDER[3] == PendingMergeCol;
    assert ORDER[4] == ProcessPid && ORDER[5] == Model && ORDER[6] == StartedAt && ORDER[7] == CompletedAt;
    assert ORDER[8] == TokensIn && ORDER[9] == TokensOut && ORDER[10] == CostUsd && ORDER[11] == Orchestrator;
  }

  lemma ExecuteParsed(table: map<string, Row>, query: string, terms: seq<(Column, Rhs)>, args: seq<Value>, id: string,
                      now: int)
    requires ParseUpdate(query) == Some(terms) && id in table
    ensures var row := Assign(table[id], terms, args, now);
            Execute(table, query, args + [Text(id)], now) ==
            if row.None? then Err(BadArguments) else Ok(table[id := row.value])
  {
    var all := args + [Text(id)];
    assert all[..|all| - 1] == args;
  }

  /** Executing the generated statement is applying the patch to the one row it names. */
  lemma ExecutingIsApplying(table: map<string, Row>, id: string, ws: Workspace, p: Patch, now: int)
    requires id in table && Represents(table[id], ws)
    ensures var out := Execute(table, QueryText([TOUCH] + Fragments(p, ORDER)), Args(p, ORDER) + [Text(id)], now);
            && out.Ok?
            && out.value.Keys == table.Keys
            && Represents(out.value[id], Applied(p, ws, now))
            && (forall other :: other in table && other != id ==> out.value[other] == table[other])
  {
    QueryReadsBack(p);
    TermsApply(table[id], ws, p, now);
    ExecuteParsed(table, QueryText([TOUCH] + Fragments(p, ORDER)),
                  [(UpdatedAt, CurrentTimestamp)] + Terms(p, ORDER), Args(p, ORDER), id, now);
  }

  lemma FirstTerm(row: Row, terms: seq<(Column, Rhs)>, args: seq<Value>, now: int)
    ensures Assign(row, [(UpdatedAt, CurrentTimestamp)] + terms, args, now) ==
            Assign(row[UpdatedAt := Time(now)], terms, args, now)
  {
    assert ([(UpdatedAt, CurrentTimestamp)] + terms)[1..] == terms;
  }

  lemma ColumnApplies(row: Row, ws: Workspace, p: Patch, now: int, out: Row, c: Column)
    requires Represents(row, ws) && Changes(row[UpdatedAt := Time(now)], p, ORDER, out)
    ensures c in out && out[c] == Stored(Applied(p, ws, now), c)
  {
    OrderCoversAllColumns(c);
    StoredAfterPatch(p, ws, now, c);
    assert row[c] == Stored(ws, c);
  }

  lemma TermsApply(row: Row, ws: Workspace, p: Patch, now: int)
    requires Represents(row, ws)
    ensures var out := Assign(row, [(UpdatedAt, CurrentTimestamp)] + Terms(p, ORDER), Args(p, ORDER), now);
            out.Some? && Represents(out.value, Applied(p, ws, now))
  {
    FirstTerm(row, Terms(p, ORDER), Args(p, ORDER), now);
    OrderCoversAllColumns(UpdatedAt);
    AssignTerms(row[UpdatedAt := Time(now)], p, ORDER, now);
    var out := Assign(row[UpdatedAt := Time(now)], Terms(p, ORDER), Args(p, ORDER), now).value;
    forall c: Column ensures c in out && out[c] == Stored(Applied(p, ws, now), c) {
      ColumnApplies(row, ws, p, now, out, c);
    }
  }

  // ---- independence of patches ----

  ghost predicate Disjoint(p: Patch, q: Patch) {
    forall c: Column :: ColumnChange(p, c).Keep? || ColumnChange(q, c).Keep?
  }

  /** Patches over disjoint columns commute; only updated_at tells the order. */
  lemma DisjointPatchesCommute(p: Patch, q: Patch, ws: Workspace, t: int, u: int)
    requires Disjoint(p, q)
    ensures Applied(q, Applied(p, ws, t), u) == Applied(p, Applied(q, ws, u), t).(updatedAt := u)
  {
    var left, right := Applied(q, Applied(p, ws, t), u), Applied(p, Applied(q, ws, u), t).(updatedAt := u);
    assert Disjoint(p, q);
    forall c: Column ensures Stored(left, c) == Stored(right, c) {
      StoredAfterPatch(p, ws, t, c);
      StoredAfterPatch(q, Applied(p, ws, t), u, c);
      StoredAfterPatch(q, ws, u, c);
      StoredAfterPatch(p, Applied(q, ws, u), t, c);
      assert ColumnChange(p, c).Keep? || ColumnChange(q, c).Keep?;
    }
    StoredIsInjective(left, right);
  }

  predicate SameState(a: Workspace, b: Workspace) {
    && a.status == b.status && a.worktreePath == b.worktreePath && a.targetRef == b.targetRef
    && a.pendingMerge == b.pendingMerge && a.processPid == b.processPid && a.model == b.model
  }

  lemma StateIsInjective(a: Workspace, b: Workspace)
    requires forall c: Column :: Stored(a, c) == Stored(b, c)
    ensures SameState(a, b)
  {
    assert Stored(a, StatusCol) == Stored(b, StatusCol) && Stored(a, WorktreePath) == Stored(b, WorktreePath);
    assert Stored(a, TargetRef) == Stored(b, TargetRef) && Stored(a, PendingMergeCol) == Stored(b, PendingMergeCol);
    assert Stored(a, ProcessPid) == Stored(b, ProcessPid) && Stored(a, Model) == Stored(b, Model);
  }

  /** A stored row determines the record, given the columns no patch can name. */
  lemma StoredIsInjective(a: Workspace, b: Workspace)
    requires forall c: Column :: Stored(a, c) == Stored(b, c)
    requires a.projectId == b.projectId && a.branch == b.branch && a.agentType == b.agentType
    ensures a == b
  {
    StateIsInjective(a, b);
    assert Stored(a, UpdatedAt) == Stored(b, UpdatedAt) && Stored(a, StartedAt) == Stored(b, StartedAt);
    assert Stored(a, CompletedAt) == Stored(b, CompletedAt) && Stored(a, TokensIn) == Stored(b, TokensIn);
    assert Stored(a, TokensOut) == Stored(b, TokensOut) && Stored(a, CostUsd) == Stored(b, CostUsd);
    assert Stored(a, Orchestrator) == Stored(b, Orchestrator);
  }

  // ---- the code ----

  /** The lists after one more field. */
  function SetsAfter(p: Patch, c: Column, sets: seq<string>): seq<string> {
    sets + FragmentsFor(p, c)
  }

  function ArgsAfter(p: Patch, c: Column, args: seq<Value>): seq<Value> {
    args + ArgsFor(p, c)
  }

  /** Three fields visited one after the other. */
  lemma Three(p: Patch, a: Column, b: Column, c: Column, sets: seq<string>, args: seq<Value>)
    ensures SetsAfter(p, c, SetsAfter(p, b, SetsAfter(p, a, sets))) == sets + Fragments(p, [a, b, c])
    ensures ArgsAfter(p, c, ArgsAfter(p, b, ArgsAfter(p, a, args))) == args + Args(p, [a, b, c])
  {
    FieldFirst(p, a, [b, c]);
    FieldFirst(p, b, [c]);
    FieldFirst(p, c, []);
    ThreeInARow(sets, FragmentsFor(p, a), FragmentsFor(p, b), FragmentsFor(p, c));
    ThreeInARow(args, ArgsFor(p, a), ArgsFor(p, b), ArgsFor(p, c));
  }

  lemma ThreeInARow<T>(s: seq<T>, x: seq<T>, y: seq<T>, z: seq<T>)
    ensures s + x + y + z == s + (x + (y + (z + [])))
  {
  }

  lemma FourInARow<T>(s: seq<T>, x: seq<T>, y: seq<T>, z: seq<T>, u: seq<T>)
    ensures s + x + y + z + u == s + (x + y + z + u)
  {
  }

  lemma FieldFirst(p: Patch, c: Column, cs: seq<Column>)
    ensures Fragments(p, [c] + cs) == FragmentsFor(p, c) + Fragments(p, cs)
    ensures Args(p, [c] + cs) == ArgsFor(p, c) + Args(p, cs)
  {
    assert ([c] + cs)[1..] == cs;
  }

  /** What a function of the columns gives for several, one after the other. */
  function Gather<T>(f: Column -> seq<T>, cs: seq<Column>): seq<T> {
    if cs == [] then [] else f(cs[0]) + Gather(f, cs[1..])
  }

  lemma {:induction false} GatherJoin<T>(f: Column -> seq<T>, a: seq<Column>, b: seq<Column>)
    ensures Gather(f, a + b) == Gather(f, a) + Gather(f, b)
  {
    if a == [] {
      assert a + b == b;
    } else {
      GatherJoin(f, a[1..], b);
      assert (a + b)[1..] == a[1..] + b;
      Strings.Assoc(f(a[0]), Gather(f, a[1..]), Gather(f, b));
    }
  }

  lemma {:induction false} FragmentsAreGathered(p: Patch, f: Column -> seq<string>, cs: seq<Column>)
    requires forall c :: f(c) == FragmentsFor(p, c)
    ensures Fragments(p, cs) == Gather(f, cs)
  {
    if cs != [] {
      FragmentsAreGathered(p, f, cs[1..]);
    }
  }

  lemma {:induction false} ArgsAreGathered(p: Patch, f: Column -> seq<Value>, cs: seq<Column>)
    requires forall c :: f(c) == ArgsFor(p, c)
    ensures Args(p, cs) == Gather(f, cs)
  {
    if cs != [] {
      ArgsAreGathered(p, f, cs[1..]);
    }
  }

  /** setClause, the fields status, worktree_path and target_ref. */
  method SetPlace(p: Patch, sets0: seq<string>, args0: seq<Value>) returns (sets: seq<string>, args: seq<Value>)
    ensures sets == sets0 + Fragments(p, PLACE) && args == args0 + Args(p, PLACE)
  {
    sets, args := sets0, args0;
    if p.status.Some? {
      sets, args := sets + [Name(StatusCol) + RhsText(Placeholder)], args + [StatusText(p.status.value)];
    }
    assert sets == SetsAfter(p, StatusCol, sets0) && args == ArgsAfter(p, StatusCol, args0);
    if p.worktreePath.Some? {
      sets, args := sets + [Name(WorktreePath) + RhsText(Placeholder)], args + [Text(p.worktreePath.value)];
    }
    if p.targetRef.Some? {
      sets, args := sets + [Name(TargetRef) + RhsText(Placeholder)], args + [Text(p.targetRef.value)];
    }
    Three(p, StatusCol, WorktreePath, TargetRef, sets0, args0);
  }

  /** setClause, the fields pending_merge, process_pid and model. */
  method SetProgress(p: Patch, sets0: seq<string>, args0: seq<Value>) returns (sets: seq<string>, args: seq<Value>)
    ensures sets == sets0 + Fragments(p, PROGRESS) && args == args0 + Args(p, PROGRESS)
  {
    sets, args := sets0, args0;
    if p.clearPendingMerge {
      sets := sets + [Name(PendingMergeCol) + RhsText(NullLiteral)];
    } else if p.pendingMerge.Some? {
      sets, args := sets + [Name(PendingMergeCol) + RhsText(Placeholder)], args + [Json(p.pendingMerge.value)];
    }
    if p.processPid.Some? {
      sets, args := sets + [Name(ProcessPid) + RhsText(Placeholder)], args + [Whole(p.processPid.value)];
    }
    if p.model.Some? {
      sets, args := sets + [Name(Model) + RhsText(Placeholder)], args + [Text(p.model.value)];
    }
    Three(p, PendingMergeCol, ProcessPid, Model, sets0, args0);
  }

  /** setClause, the fields started_at, completed_at and tokens_in. */
  method SetTimes(p: Patch, sets0: seq<string>, args0: seq<Value>) returns (sets: seq<string>, args: seq<Value>)
    ensures sets == sets0 + Fragments(p, TIMES) && args == args0 + Args(p, TIMES)
  {
    sets, args := sets0, args0;
    if p.startedAt.Some? {
      sets, args := sets + [Name(StartedAt) + RhsText(Placeholder)], args + [Time(p.startedAt.value)];
    }
    if p.completedAt.Some? {
      sets, args := sets + [Name(CompletedAt) + RhsText(Placeholder)], args + [Time(p.completedAt.value)];
    }
    if p.tokensIn.Some? {
      sets, args := sets + [Name(TokensIn) + RhsText(Placeholder)], args + [Whole(p.tokensIn.value)];
    }
    Three(p, StartedAt, CompletedAt, TokensIn, sets0, args0);
  }

  /** setClause, the fields tokens_out, cost_usd and orchestrator. */
  method SetTotals(p: Patch, sets0: seq<string>, args0: seq<Value>) returns (sets: seq<string>, args: seq<Value>)
    ensures sets == sets0 + Fragments(p, TOTALS) && args == args0 + Args(p, TOTALS)
  {
    sets, args := sets0, args0;
    if p.tokensOut.Some? {
      sets, args := sets + [Name(TokensOut) + RhsText(Placeholder)], args + [Whole(p.tokensOut.value)];
    }
    if p.costUsd.Some? {
      sets, args := sets + [Name(CostUsd) + RhsText(Placeholder)], args + [Floating(p.costUsd.value)];
    }
    if p.orchestrator.Some? {
      sets, args := sets + [Name(Orchestrator) + RhsText(Placeholder)], args + [Boolean(p.orchestrator.value)];
    }
    Three(p, TokensOut, CostUsd, Orchestrator, sets0, args0);
  }

  lemma Grouped<T>(f: Column -> seq<T>, head: seq<T>, a: seq<Column>, b: seq<Column>, c: seq<Column>, d: seq<Column>)
    ensures head + Gather(f, a) + Gather(f, b) + Gather(f, c) + Gather(f, d) == head + Gather(f, a + b + c + d)
  {
    GatherJoin(f, a, b);
    GatherJoin(f, a + b, c);
    GatherJoin(f, a + b + c, d);
    FourInARow(head, Gather(f, a), Gather(f, b), Gather(f, c), Gather(f, d));
  }

  lemma GroupedFragments(p: Patch, head: seq<string>, a: seq<Column>, b: seq<Column>, c: seq<Column>, d: seq<Column>)
    ensures head + Fragments(p, a) + Fragments(p, b) + Fragments(p, c) + Fragments(p, d)
         == head + Fragments(p, a + b + c + d)
  {
    var f := c => FragmentsFor(p, c);
    FragmentsAreGathered(p, f, a);
    FragmentsAreGathered(p, f, b);
    FragmentsAreGathered(p, f, c);
    FragmentsAreGathered(p, f, d);
    FragmentsAreGathered(p, f, a + b + c + d);
    Grouped(f, head, a, b, c, d);
  }

  lemma GroupedArgs(p: Patch, a: seq<Column>, b: seq<Column>, c: seq<Column>, d: seq<Column>)
    ensures [] + Args(p, a) + Args(p, b) + Args(p, c) + Args(p, d) == Args(p, a + b + c + d)
  {
    var f := c => ArgsFor(p, c);
    ArgsAreGathered(p, f, a);
    ArgsAreGathered(p, f, b);
    ArgsAreGathered(p, f, c);
    ArgsAreGathered(p, f, d);
    ArgsAreGathered(p, f, a + b + c + d);
    Grouped(f, [], a, b, c, d);
    FromEmpty(Args(p, a + b + c + d));
  }

  lemma FromEmpty<T>(s: seq<T>)
    ensures [] + s == s
  {
  }

  lemma TouchText()
    ensures TOUCH == "updated_at = CURRENT_TIMESTAMP"
  {
  }

  /** setClause: grows the fragment and argument lists field by field. */
  method SetClause(p: Patch) returns (sets: seq<string>, args: seq<Value>)
    ensures sets == [TOUCH] + Fragments(p, ORDER)
    ensures args == Args(p, ORDER)
  {
    TouchText();
    sets, args := ["updated_at = CURRENT_TIMESTAMP"], [];
    sets, args := SetPlace(p, sets, args);
    sets, args := SetProgress(p, sets, args);
    sets, args := SetTimes(p, sets, args);
    sets, args := SetTotals(p, sets, args);
    GroupedFragments(p, [TOUCH], PLACE, PROGRESS, TIMES, TOTALS);
    GroupedArgs(p, PLACE, PROGRESS, TIMES, TOTALS);
  }

  // ---- the text, word for word ----

  /** A term of the list when the field is set. */
  function When(given: bool, text: string): seq<string> {
    if given then [text] else []
  }

  function Arg<T>(field: Option<T>, value: T -> Value): seq<Value> {
    if field.Some? then [value(field.value)] else []
  }

  function PlaceText(p: Patch): seq<string> {
    When(p.status.Some?, "status = ?")
    + When(p.worktreePath.Some?, "worktree_path = ?")
    + When(p.targetRef.Some?, "target_ref = ?")
  }

  function PlaceArgs(p: Patch): seq<Value> {
    Arg(p.status, v => StatusText(v))
    + Arg(p.worktreePath, v => Text(v))
    + Arg(p.targetRef, v => Text(v))
  }

  lemma StatusColText(p: Patch)
    ensures FragmentsFor(p, StatusCol) == When(p.status.Some?, "status = ?")
    ensures ArgsFor(p, StatusCol) == Arg(p.status, v => StatusText(v))
  {
    assert "status" + " = ?" == "status = ?";
  }

  lemma WorktreePathText(p: Patch)
    ensures FragmentsFor(p, WorktreePath) == When(p.worktreePath.Some?, "worktree_path = ?")
    ensures ArgsFor(p, WorktreePath) == Arg(p.worktreePath, v => Text(v))
  {
    assert "worktree_path" + " = ?" == "worktree_path = ?";
  }

  lemma TargetRefText(p: Patch)
    ensures FragmentsFor(p, TargetRef) == When(p.targetRef.Some?, "target_ref = ?")
    ensures ArgsFor(p, TargetRef) == Arg(p.targetRef, v => Text(v))
  {
    assert "target_ref" + " = ?" == "target_ref = ?";
  }

  lemma PlaceSaid(p: Patch)
    ensures Fragments(p, PLACE) == PlaceText(p) && Args(p, PLACE) == PlaceArgs(p)
  {
    Three(p, StatusCol, WorktreePath, TargetRef, [], []);
    StatusColText(p);
    WorktreePathText(p);
    TargetRefText(p);
    FromEmpty(Fragments(p, PLACE));
    FromEmpty(Args(p, PLACE));
  }

  function ProgressText(p: Patch): seq<string> {
    (if p.clearPendingMerge then ["pending_merge = NULL"]
     else When(p.pendingMerge.Some?, "pending_merge = ?"))
    + When(p.processPid.Some?, "process_pid = ?")
    + When(p.model.Some?, "model = ?")
  }

  function ProgressArgs(p: Patch): seq<Value> {
    (if p.clearPendingMerge then [] else Arg(p.pendingMerge, v => Json(v)))
    + Arg(p.processPid, v => Whole(v))
    + Arg(p.model, v => Text(v))
  }

  lemma PendingMergeColText(p: Patch)
    ensures FragmentsFor(p, PendingMergeCol) ==
            if p.clearPendingMerge then ["pending_merge = NULL"] else When(p.pendingMerge.Some?, "pending_merge = ?")
    ensures ArgsFor(p, PendingMergeCol) == if p.clearPendingMerge then [] else Arg(p.pendingMerge, v => Json(v))
  {
    assert "pending_merge" + " = NULL" == "pending_merge = NULL" && "pending_merge" + " = ?" == "pending_merge = ?";
  }

  lemma ProcessPidText(p: Patch)
    ensures FragmentsFor(p, ProcessPid) == When(p.processPid.Some?, "process_pid = ?")
    ensures ArgsFor(p, ProcessPid) == Arg(p.processPid, v => Whole(v))
  {
    assert "process_pid" + " = ?" == "process_pid = ?";
  }

  lemma ModelText(p: Patch)
    ensures FragmentsFor(p, Model) == When(p.model.Some?, "model = ?")
    ensures ArgsFor(p, Model) == Arg(p.model, v => Text(v))
  {
    assert "model" + " = ?" == "model = ?";
  }

  lemma ProgressSaid(p: Patch)
    ensures Fragments(p, PROGRESS) == ProgressText(p) && Args(p, PROGRESS) == ProgressArgs(p)
  {
    Three(p, PendingMergeCol, ProcessPid, Model, [], []);
    PendingMergeColText(p);
    ProcessPidText(p);
    ModelText(p);
    FromEmpty(Fragments(p, PROGRESS));
    FromEmpty(Args(p, PROGRESS));
  }

  function TimesText(p: Patch): seq<string> {
    When(p.startedAt.Some?, "started_at = ?")
    + When(p.completedAt.Some?, "completed_at = ?")
    + When(p.tokensIn.Some?, "tokens_in = ?")
  }

  function TimesArgs(p: Patch): seq<Value> {
    Arg(p.startedAt, v => Time(v))
    + Arg(p.completedAt, v => Time(v))
    + Arg(p.tokensIn, v => Whole(v))
  }

  lemma StartedAtText(p: Patch)
    ensures FragmentsFor(p, StartedAt) == When(p.startedAt.Some?, "started_at = ?")
    ensures ArgsFor(p, StartedAt) == Arg(p.startedAt, v => Time(v))
  {
    assert "started_at" + " = ?" == "started_at = ?";
  }

  lemma CompletedAtText(p: Patch)
    ensures FragmentsFor(p, CompletedAt) == When(p.completedAt.Some?, "completed_at = ?")
    ensures ArgsFor(p, CompletedAt) == Arg(p.completedAt, v => Time(v))
  {
    assert "completed_at" + " = ?" == "completed_at = ?";
  }

  lemma TokensInText(p: Patch)
    ensures FragmentsFor(p, TokensIn) == When(p.tokensIn.Some?, "tokens_in = ?")
    ensures ArgsFor(p, TokensIn) == Arg(p.tokensIn, v => Whole(v))
  {
    assert "tokens_in" + " = ?" == "tokens_in = ?";
  }

  lemma TimesSaid(p: Patch)
    ensures Fragments(p, TIMES) == TimesText(p) && Args(p, TIMES) == TimesArgs(p)
  {
    Three(p, StartedAt, CompletedAt, TokensIn, [], []);
    StartedAtText(p);
    CompletedAtText(p);
    TokensInText(p);
    FromEmpty(Fragments(p, TIMES));
    FromEmpty(Args(p, TIMES));
  }

  function TotalsText(p: Patch): seq<string> {
    When(p.tokensOut.Some?, "tokens_out = ?")
    + When(p.costUsd.Some?, "cost_usd = ?")
    + When(p.orchestrator.Some?, "orchestrator = ?")
  }

  function TotalsArgs(p: Patch): seq<Value> {
    Arg(p.tokensOut, v => Whole(v))
    + Arg(p.costUsd, v => Floating(v))
    + Arg(p.orchestrator, v => Boolean(v))
  }

  lemma TokensOutText(p: Patch)
    ensures FragmentsFor(p, TokensOut) == When(p.tokensOut.Some?, "tokens_out = ?")
    ensures ArgsFor(p, TokensOut) == Arg(p.tokensOut, v => Whole(v))
  {
    assert "tokens_out" + " = ?" == "tokens_out = ?";
  }

  lemma CostUsdText(p: Patch)
    ensures FragmentsFor(p, CostUsd) == When(p.costUsd.Some?, "cost_usd = ?")
    ensures ArgsFor(p, CostUsd) == Arg(p.costUsd, v => Floating(v))
  {
    assert "cost_usd" + " = ?" == "cost_usd = ?";
  }

  lemma OrchestratorText(p: Patch)
    ensures FragmentsFor(p, Orchestrator) == When(p.orchestrator.Some?, "orchestrator = ?")
    ensures ArgsFor(p, Orchestrator) == Arg(p.orchestrator, v => Boolean(v))
  {
    assert "orchestrator" + " = ?" == "orchestrator = ?";
  }

  lemma TotalsSaid(p: Patch)
    ensures Fragments(p, TOTALS) == TotalsText(p) && Args(p, TOTALS) == TotalsArgs(p)
  {
    Three(p, TokensOut, CostUsd, Orchestrator, [], []);
    TokensOutText(p);
    CostUsdText(p);
    OrchestratorText(p);
    FromEmpty(Fragments(p, TOTALS));
    FromEmpty(Args(p, TOTALS));
  }

  /** The statement for any patch, word for word: updated_at, then a term for each field that
      is set, in this order; and the arguments that go with the question marks. */
  lemma StatementText(p: Patch)
    ensures QueryText([TOUCH] + Fragments(p, ORDER)) ==
            "UPDATE workspaces SET "
            + Strings.Join(["updated_at = CURRENT_TIMESTAMP"] + PlaceText(p) + ProgressText(p) + TimesText(p)
                           + TotalsText(p), ", ")
            + " WHERE id = ?;"
    ensures Args(p, ORDER) == PlaceArgs(p) + ProgressArgs(p) + TimesArgs(p) + TotalsArgs(p)
  {
    TouchText();
    PlaceSaid(p);
    ProgressSaid(p);
    TimesSaid(p);
    TotalsSaid(p);
    GroupedFragments(p, [TOUCH], PLACE, PROGRESS, TIMES, TOTALS);
    GroupedArgs(p, PLACE, PROGRESS, TIMES, TOTALS);
    FromEmpty(Args(p, PLACE));
  }

  /** The table, updated through the text of one statement at a time. */
  class WorkspaceTable {
    var rows: map<string, Row>

    constructor ()
      ensures rows == map[]
    {
      rows := map[];
    }

    /** The named row becomes the patched record, every other row stays; an
        unknown id is ErrNotFound and changes nothing. */
    method UpdateWorkspace(id: string, patch: Patch, now: int) returns (r: Result<Row, SqlError>)
      modifies this
      ensures id !in old(rows) ==> r == Err(NotFound) && rows == old(rows)
      ensures forall ws: Workspace :: id in old(rows) && Represents(old(rows)[id], ws) ==>
                && r.Ok? && rows == old(rows)[id := r.value]
                && Represents(r.value, Applied(patch, ws, now))
    {
      var sets, args := SetClause(patch);
      args := args + [Text(id)];
      var result := Execute(rows, QueryText(sets), args, now);
      QueryReadsBack(patch);
      forall ws: Workspace | id in rows && Represents(rows[id], ws)
        ensures result.Ok? && result.value == rows[id := result.value[id]]
        ensures Represents(result.value[id], Applied(patch, ws, now))
      {
        ExecutingIsApplying(rows, id, ws, patch, now);
      }
      if result.Err? {
        return Err(result.error);
      }
      rows := result.value;
      r := Ok(rows[id]);
    }
  }
}
