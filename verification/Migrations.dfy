/** The migration runner (internal/db/migrate.go): what is recorded is what was executed,
    across failed, crashed and repeated runs. */
module Migrations {
  import opened Wrappers

  // ---- sort.Strings ----

  /** The order of Go's strings: character by character, a prefix first. */
  predicate Less(a: string, b: string) {
    if b == "" then false
    else if a == "" then true
    else a[0] < b[0] || (a[0] == b[0] && Less(a[1..], b[1..]))
  }

  lemma {:induction false} LessOrMore(a: string, b: string)
    ensures Less(a, b) || a == b || Less(b, a)
    ensures !(Less(a, b) && Less(b, a)) && !Less(a, a)
  {
    if a != "" && b != "" {
      LessOrMore(a[1..], b[1..]);
      LessOrMore(a[1..], a[1..]);
      assert a == [a[0]] + a[1..] && b == [b[0]] + b[1..];
    } else if a != "" {
      LessOrMore(a[1..], a[1..]);
    }
  }

  lemma {:induction false} LessTransitive(a: string, b: string, c: string)
    requires Less(a, b) && Less(b, c)
    ensures Less(a, c)
  {
    if a != "" && a[0] == b[0] == c[0] {
      LessTransitive(a[1..], b[1..], c[1..]);
    }
  }

  /** The first of two different names: a proper prefix of the other, or with the smaller
      character where they first differ. */
  ghost predicate Precedes(a: string, b: string) {
    (a <= b && a != b) || exists k :: DiffersAt(a, b, k) && a[k] < b[k]
  }

  predicate DiffersAt(a: string, b: string, k: int) {
    0 <= k < |a| && k < |b| && a[..k] == b[..k] && a[k] != b[k]
  }

  lemma {:induction false} LessExactly(a: string, b: string)
    ensures Less(a, b) <==> Precedes(a, b)
  {
    if a != "" && b != "" {
      LessExactly(a[1..], b[1..]);
      if a[0] == b[0] {
        PrecedesShift(a, b);
      } else {
        assert a[0] < b[0] ==> DiffersAt(a, b, 0);
      }
    }
  }

  /** A common first character does not count. */
  lemma PrecedesShift(a: string, b: string)
    requires a != "" && b != "" && a[0] == b[0]
    ensures Precedes(a, b) <==> Precedes(a[1..], b[1..])
  {
    assert a == [a[0]] + a[1..] && b == [b[0]] + b[1..];
    if k :| DiffersAt(a, b, k) && a[k] < b[k] {
      assert a[..k][1..] == a[1..][..k - 1] && b[..k][1..] == b[1..][..k - 1];
      assert DiffersAt(a[1..], b[1..], k - 1);
    }
    if k :| DiffersAt(a[1..], b[1..], k) && a[1..][k] < b[1..][k] {
      assert a[..k + 1] == [a[0]] + a[1..][..k] && b[..k + 1] == [b[0]] + b[1..][..k];
      assert DiffersAt(a, b, k + 1);
    }
  }

  // ---- numbered names ----

  predicate AllDigits(s: string) {
    forall i :: 0 <= i < |s| ==> '0' <= s[i] <= '9'
  }

  /** The number a string of digits stands for. */
  function NumberOf(digits: string): nat
    requires AllDigits(digits)
  {
    if digits == "" then 0
    else NumberOf(digits[..|digits| - 1]) * 10 + (digits[|digits| - 1] as int - '0' as int)
  }

  lemma {:induction false} SameNumber(a: string, b: string)
    requires AllDigits(a) && AllDigits(b) && |a| == |b| && NumberOf(a) == NumberOf(b)
    ensures a == b
  {
    if a != "" {
      SameNumber(a[..|a| - 1], b[..|b| - 1]);
      assert a == a[..|a| - 1] + [a[|a| - 1]] && b == b[..|b| - 1] + [b[|b| - 1]];
    }
  }

  /** Of two numbers of as many digits the smaller differs first by a smaller digit. */
  lemma {:induction false} SmallerNumber(a: string, b: string) returns (k: nat)
    requires AllDigits(a) && AllDigits(b) && |a| == |b| && NumberOf(a) < NumberOf(b)
    ensures DiffersAt(a, b, k) && a[k] < b[k]
  {
    var n := |a| - 1;
    var x, y := a[..n], b[..n];
    if NumberOf(x) < NumberOf(y) {
      k := SmallerNumber(x, y);
      assert a[..k] == x[..k] && b[..k] == y[..k];
    } else {
      SameNumber(x, y);
      k := n;
    }
  }

  /** So names that start with as many digits come in the order of their numbers. */
  lemma NumberedPrecede(a: string, b: string, n: nat)
    requires n <= |a| && n <= |b| && AllDigits(a[..n]) && AllDigits(b[..n])
    requires NumberOf(a[..n]) < NumberOf(b[..n])
    ensures Precedes(a, b)
  {
    var k := SmallerNumber(a[..n], b[..n]);
    assert a[..k] == a[..n][..k] && b[..k] == b[..n][..k];
    assert DiffersAt(a, b, k);
  }

  function Insert(x: string, s: seq<string>): seq<string> {
    if s == [] then [x]
    else if Less(s[0], x) then [s[0]] + Insert(x, s[1..])
    else [x] + s
  }

  function Sort(s: seq<string>): seq<string> {
    if s == [] then [] else Insert(s[0], Sort(s[1..]))
  }

  predicate Ascending(s: seq<string>) {
    forall i, j :: 0 <= i < j < |s| ==> Less(s[i], s[j])
  }

  ghost predicate SameElements(a: seq<string>, b: seq<string>) {
    forall x :: x in a <==> x in b
  }

  lemma {:induction false} InsertAscends(x: string, s: seq<string>)
    requires Ascending(s) && x !in s
    ensures Ascending(Insert(x, s))
    ensures forall y :: y in Insert(x, s) <==> y == x || y in s
  {
    if s != [] {
      if Less(s[0], x) {
        InsertAscends(x, s[1..]);
        var t := Insert(x, s[1..]);
        forall y | y in t ensures Less(s[0], y) {
          assert y == x || y in s[1..];
        }
      } else {
        LessOrMore(s[0], x);
        forall i | 0 <= i < |s| ensures Less(x, s[i]) {
          if i > 0 {
            LessTransitive(x, s[0], s[i]);
          }
        }
      }
    }
  }

  lemma {:induction false} InsertionsAscend(s: seq<string>)
    requires Distinct(s)
    ensures Ascending(Sort(s)) && SameElements(Sort(s), s)
  {
    if s != [] {
      InsertionsAscend(s[1..]);
      assert s[0] !in s[1..];
      InsertAscends(s[0], Sort(s[1..]));
    }
  }

  lemma AscendingPrecedes(s: seq<string>)
    ensures Ascending(s) <==> forall i, j :: 0 <= i < j < |s| ==> Precedes(s[i], s[j])
  {
    forall i, j | 0 <= i < j < |s| ensures Less(s[i], s[j]) <==> Precedes(s[i], s[j]) {
      LessExactly(s[i], s[j]);
    }
  }

  /** Sorting distinct names gives the same names, each before the later ones. */
  lemma SortAscends(s: seq<string>)
    requires Distinct(s)
    ensures Ascending(Sort(s)) && SameElements(Sort(s), s)
    ensures forall i, j :: 0 <= i < j < |Sort(s)| ==> Precedes(Sort(s)[i], Sort(s)[j])
  {
    InsertionsAscend(s);
    AscendingPrecedes(Sort(s));
  }

  lemma LessHead(s: seq<string>, x: string)
    requires Ascending(s) && s != [] && x in s && x != s[0]
    ensures Less(s[0], x)
  {
  }

  /** An ascending list is determined by its elements. */
  lemma {:induction false} AscendingUnique(a: seq<string>, b: seq<string>)
    requires Ascending(a) && Ascending(b) && SameElements(a, b)
    ensures a == b
  {
    assert b != [] ==> b[0] in b;
    if a != [] {
      assert a[0] in b;
      assert b[0] in a;
      if a[0] != b[0] {
        LessHead(b, a[0]);
        LessHead(a, b[0]);
        LessOrMore(a[0], b[0]);
        assert false;
      }
      TailElements(a, b);
      AscendingUnique(a[1..], b[1..]);
    }
  }

  lemma TailElements(a: seq<string>, b: seq<string>)
    requires Ascending(a) && Ascending(b) && SameElements(a, b) && a != [] && b != [] && a[0] == b[0]
    ensures Ascending(a[1..]) && Ascending(b[1..]) && SameElements(a[1..], b[1..])
  {
    LessOrMore(a[0], a[0]);
    forall x ensures x in a[1..] <==> x in b[1..] {
      assert x in a <==> x == a[0] || x in a[1..];
      assert x in b <==> x == b[0] || x in b[1..];
    }
  }

  // ---- the runner ----

  datatype Entry = Entry(name: string, isDir: bool)

  predicate IsMigration(e: Entry) {
    !e.isDir && ScriptName(e.name)
  }

  function Version(name: string): string {
    if |name| < 4 then name else name[..|name| - 4]
  }

  function Versions(names: seq<string>): seq<string> {
    seq(|names|, i requires 0 <= i < |names| => Version(names[i]))
  }

  /** The rows of schema_migrations, and the scripts whose effects are in the schema. */
  datatype Db = Db(versions: seq<string>, executed: seq<string>)

  function Pending(versions: seq<string>, files: seq<Entry>): seq<string> {
    if files == [] then []
    else
      var f := files[|files| - 1];
      Pending(versions, files[..|files| - 1])
      + if IsMigration(f) && Version(f.name) !in versions then [f.name] else []
  }

  /** One run that fails, or is cut off, at the script number `stopAt`. */
  function Applied(db: Db, files: seq<Entry>, stopAt: nat): Db {
    var todo := Sort(Pending(db.versions, files));
    var now := todo[..Least(stopAt, |todo|)];
    Db(db.versions + Versions(now), db.executed + now)
  }

  predicate Directory(files: seq<Entry>) {
    forall i, j :: 0 <= i < j < |files| ==> files[i].name != files[j].name
  }

  // ---- pending scripts ----

  predicate IsPending(versions: seq<string>, files: seq<Entry>, name: string) {
    Version(name) !in versions && exists i :: 0 <= i < |files| && IsMigration(files[i]) && files[i].name == name
  }

  lemma {:induction false} PendingMembers(versions: seq<string>, files: seq<Entry>, name: string)
    ensures name in Pending(versions, files) <==> IsPending(versions, files, name)
  {
    if files != [] {
      PendingMembers(versions, files[..|files| - 1], name);
    }
  }

  lemma {:induction false} PendingDistinct(versions: seq<string>, files: seq<Entry>)
    requires Directory(files)
    ensures Distinct(Pending(versions, files))
  {
    if files != [] {
      PendingDistinct(versions, files[..|files| - 1]);
      PendingMembers(versions, files[..|files| - 1], files[|files| - 1].name);
    }
  }

  lemma TodoIs(versions: seq<string>, files: seq<Entry>)
    requires Directory(files)
    ensures Ascending(Sort(Pending(versions, files)))
    ensures forall name :: name in Sort(Pending(versions, files)) <==> IsPending(versions, files, name)
  {
    PendingDistinct(versions, files);
    SortAscends(Pending(versions, files));
    forall name ensures name in Sort(Pending(versions, files)) <==> IsPending(versions, files, name) {
      PendingMembers(versions, files, name);
    }
  }

  predicate ScriptName(name: string) {
    |name| >= 5 && name[|name| - 4..] == ".sql"
  }

  /** Different scripts have different versions. */
  lemma VersionInjective(a: string, b: string)
    requires ScriptName(a) && ScriptName(b)
    ensures Version(a) == Version(b) <==> a == b
  {
    assert a == a[..|a| - 4] + ".sql" && b == b[..|b| - 4] + ".sql";
  }

  lemma VersionMember(names: seq<string>, name: string)
    requires ScriptName(name) && forall i :: 0 <= i < |names| ==> ScriptName(names[i])
    ensures Version(name) in Versions(names) <==> name in names
  {
    forall i | 0 <= i < |names| ensures Versions(names)[i] == Version(name) <==> names[i] == name {
      VersionInjective(names[i], name);
    }
    assert name in names ==> exists i :: 0 <= i < |names| && Versions(names)[i] == Version(name);
  }

  // ---- the invariant, for any file sets ----

  /** Recorded is what was executed, in that order, and nothing was executed twice. */
  predicate Faithful(db: Db) {
    && db.versions == Versions(db.executed)
    && Distinct(db.executed)
    && forall i :: 0 <= i < |db.executed| ==> ScriptName(db.executed[i])
  }

  lemma VersionsJoin(a: seq<string>, b: seq<string>)
    ensures Versions(a + b) == Versions(a) + Versions(b)
  {
  }

  lemma AscendingDistinct(s: seq<string>)
    requires Ascending(s)
    ensures Distinct(s)
  {
    forall i, j | 0 <= i < j < |s| ensures s[i] != s[j] {
      LessOrMore(s[i], s[j]);
    }
  }

  lemma RunKeeps(db: Db, files: seq<Entry>, stopAt: nat)
    requires Faithful(db) && Directory(files)
    ensures Faithful(Applied(db, files, stopAt))
  {
    var todo := Sort(Pending(db.versions, files));
    var now := todo[..Least(stopAt, |todo|)];
    TodoIs(db.versions, files);
    AscendingDistinct(todo);
    VersionsJoin(db.executed, now);
    forall i | 0 <= i < |now| ensures ScriptName(now[i]) && now[i] !in db.executed {
      assert now[i] in todo && IsPending(db.versions, files, now[i]);
      VersionMember(db.executed, now[i]);
    }
  }

  datatype Run = Run(files: seq<Entry>, stopAt: nat)

  function After(db: Db, runs: seq<Run>): Db
    decreases |runs|
  {
    if runs == [] then db else After(Applied(db, runs[0].files, runs[0].stopAt), runs[1..])
  }

  const EMPTY := Db([], [])

  /** Over any schedule of failing runs, even with scripts added or removed between them. */
  lemma {:induction false} RecordedIsExecuted(db: Db, runs: seq<Run>)
    requires Faithful(db) && forall i :: 0 <= i < |runs| ==> Directory(runs[i].files)
    ensures Faithful(After(db, runs)) && db.executed <= After(db, runs).executed
    decreases |runs|
  {
    if runs != [] {
      RunKeeps(db, runs[0].files, runs[0].stopAt);
      RecordedIsExecuted(Applied(db, runs[0].files, runs[0].stopAt), runs[1..]);
    }
  }

  // ---- a fixed file set ----

  function All(files: seq<Entry>): seq<string> {
    Sort(Pending([], files))
  }

  /** After the first k scripts, the rest is pending, in order. */
  lemma RestIsPending(files: seq<Entry>, k: nat)
    requires Directory(files) && k <= |All(files)|
    ensures Sort(Pending(Versions(All(files)[..k]), files)) == All(files)[k..]
  {
    var all := All(files);
    var done := Versions(all[..k]);
    TodoIs([], files);
    TodoIs(done, files);
    AscendingDistinct(all);
    forall name ensures name in Sort(Pending(done, files)) <==> name in all[k..] {
      RestMembers(files, k, name);
    }
    AscendingUnique(Sort(Pending(done, files)), all[k..]);
  }

  lemma RestMembers(files: seq<Entry>, k: nat, name: string)
    requires Directory(files) && k <= |All(files)|
    ensures IsPending(Versions(All(files)[..k]), files, name) <==> name in All(files)[k..]
  {
    var all := All(files);
    TodoIs([], files);
    AscendingDistinct(all);
    if name in all {
      assert IsPending([], files, name);
      assert forall i :: 0 <= i < k ==> all[..k][i] in all && IsPending([], files, all[..k][i]);
      VersionMember(all[..k], name);
      DistinctParts(all, k, name);
    } else {
      assert !IsPending([], files, name);
      assert all == all[..k] + all[k..];
    }
  }

  lemma DistinctParts(s: seq<string>, k: nat, x: string)
    requires Distinct(s) && k <= |s| && x in s
    ensures x in s[..k] <==> x !in s[k..]
  {
    var i :| 0 <= i < |s| && s[i] == x;
    if i < k {
      assert s[..k][i] == x;
    } else {
      assert s[k..][i - k] == x;
    }
  }

  /** The state of a database that got through the first k scripts. */
  function UpTo(files: seq<Entry>, k: nat): Db
    requires k <= |All(files)|
  {
    Db(Versions(All(files)[..k]), All(files)[..k])
  }

  lemma RunAdvances(files: seq<Entry>, k: nat, stopAt: nat)
    requires Directory(files) && k <= |All(files)|
    ensures Applied(UpTo(files, k), files, stopAt) == UpTo(files, Least(k + stopAt, |All(files)|))
  {
    RestIsPending(files, k);
    var all := All(files);
    var n := Least(stopAt, |all| - k);
    assert all[..k] + all[k..][..n] == all[..k + n];
    VersionsJoin(all[..k], all[k..][..n]);
  }

  function Tries(files: seq<Entry>, stops: seq<nat>): seq<Run> {
    seq(|stops|, i requires 0 <= i < |stops| => Run(files, stops[i]))
  }

  function Total(stops: seq<nat>): nat {
    if stops == [] then 0 else stops[0] + Total(stops[1..])
  }

  lemma TriesShift(files: seq<Entry>, stops: seq<nat>, db: Db)
    requires stops != []
    ensures After(db, Tries(files, stops)) == After(Applied(db, files, stops[0]), Tries(files, stops[1..]))
  {
    assert Tries(files, stops)[1..] == Tries(files, stops[1..]);
  }

  /** How many of n scripts are through after these runs, from k on. */
  function Progress(k: nat, stops: seq<nat>, n: nat): nat
    decreases |stops|
  {
    if stops == [] then k else Progress(Least(k + stops[0], n), stops[1..], n)
  }

  lemma {:induction false} ProgressTotals(k: nat, stops: seq<nat>, n: nat)
    requires k <= n
    ensures Progress(k, stops, n) == Least(k + Total(stops), n)
    decreases |stops|
  {
    if stops != [] {
      ProgressTotals(Least(k + stops[0], n), stops[1..], n);
    }
  }

  lemma {:induction false} TriesAdvance(files: seq<Entry>, k: nat, stops: seq<nat>)
    requires Directory(files) && k <= |All(files)|
    ensures Progress(k, stops, |All(files)|) <= |All(files)|
    ensures After(UpTo(files, k), Tries(files, stops)) == UpTo(files, Progress(k, stops, |All(files)|))
    decreases |stops|
  {
    if stops != [] {
      var k' := Least(k + stops[0], |All(files)|);
      RunAdvances(files, k, stops[0]);
      TriesShift(files, stops, UpTo(files, k));
      TriesAdvance(files, k', stops[1..]);
    }
  }

  /** Any schedule of failures over one file set leaves a prefix of the sorted scripts, as
      long as the runs got through together; once they got through as many as there are,
      the schema is that of one uninterrupted run, and running again changes nothing. */
  lemma InterruptedIsUninterrupted(files: seq<Entry>, stops: seq<nat>, again: nat)
    requires Directory(files)
    ensures var db, n := After(EMPTY, Tries(files, stops)), |All(files)|;
            && db == UpTo(files, Least(Total(stops), n))
            && (Total(stops) >= n ==> db == Applied(EMPTY, files, n) && Applied(db, files, again) == db)
  {
    assert UpTo(files, 0) == EMPTY;
    TriesAdvance(files, 0, stops);
    ProgressTotals(0, stops, |All(files)|);
    RunAdvances(files, 0, |All(files)|);
    RunAdvances(files, |All(files)|, again);
  }

  /** A run reports success exactly when no script is left. */
  lemma FinishedExactly(files: seq<Entry>, stops: seq<nat>, stopAt: nat)
    requires Directory(files)
    ensures var db := After(EMPTY, Tries(files, stops));
            stopAt >= |Sort(Pending(db.versions, files))| <==>
            Applied(db, files, stopAt).executed == All(files)
  {
    var k := Least(Total(stops), |All(files)|);
    InterruptedIsUninterrupted(files, stops, 0);
    RestIsPending(files, k);
    RunAdvances(files, k, stopAt);
  }

  /** What a run would start with sorts after everything executed so far. */
  predicate Continues(db: Db, r: Run) {
    var todo := Sort(Pending(db.versions, r.files));
    r.stopAt > 0 && todo != [] && db.executed != [] ==> Less(db.executed[|db.executed| - 1], todo[0])
  }

  ghost predicate AllContinue(db: Db, runs: seq<Run>)
    decreases |runs|
  {
    runs == [] || (Continues(db, runs[0]) && AllContinue(Applied(db, runs[0].files, runs[0].stopAt), runs[1..]))
  }

  lemma AscendingJoin(a: seq<string>, b: seq<string>)
    requires Ascending(b)
    ensures Ascending(a + b) <==> Ascending(a) && (a != [] && b != [] ==> Less(a[|a| - 1], b[0]))
  {
    var s := a + b;
    if Ascending(s) {
      assert forall i :: 0 <= i < |a| ==> s[i] == a[i];
      assert a != [] && b != [] ==> s[|a| - 1] == a[|a| - 1] && s[|a|] == b[0];
    }
    if Ascending(a) && (a != [] && b != [] ==> Less(a[|a| - 1], b[0])) {
      forall i, j | 0 <= i < j < |s| ensures Less(s[i], s[j]) {
        if i < |a| <= j {
          Across(a, b, i, j - |a|);
        }
      }
    }
  }

  lemma Across(a: seq<string>, b: seq<string>, i: nat, j: nat)
    requires Ascending(a) && Ascending(b) && i < |a| && j < |b| && Less(a[|a| - 1], b[0])
    ensures Less(a[i], b[j])
  {
    if i < |a| - 1 {
      LessTransitive(a[i], a[|a| - 1], b[0]);
    }
    if j > 0 {
      LessTransitive(a[i], b[0], b[j]);
    }
  }

  lemma PrefixAscends(a: seq<string>, b: seq<string>)
    requires a <= b && Ascending(b)
    ensures Ascending(a)
  {
    assert forall i :: 0 <= i < |a| ==> a[i] == b[i];
  }

  lemma RunContinues(db: Db, r: Run)
    requires Directory(r.files)
    ensures Ascending(Applied(db, r.files, r.stopAt).executed) <==> Ascending(db.executed) && Continues(db, r)
  {
    var todo := Sort(Pending(db.versions, r.files));
    TodoIs(db.versions, r.files);
    AscendingJoin(db.executed, todo[..Least(r.stopAt, |todo|)]);
  }

  lemma {:induction false} ExecutedGrows(db: Db, runs: seq<Run>)
    ensures db.executed <= After(db, runs).executed
    decreases |runs|
  {
    if runs != [] {
      ExecutedGrows(Applied(db, runs[0].files, runs[0].stopAt), runs[1..]);
    }
  }

  /** With scripts added or removed between the runs: the scripts were executed in sorted
      order exactly when each run's first one sorted after all executed before it. */
  lemma {:induction false} ExecutedInOrderExactly(db: Db, runs: seq<Run>)
    requires Ascending(db.executed) && forall i :: 0 <= i < |runs| ==> Directory(runs[i].files)
    ensures Ascending(After(db, runs).executed) <==> AllContinue(db, runs)
    decreases |runs|
  {
    if runs != [] {
      var next := Applied(db, runs[0].files, runs[0].stopAt);
      RunContinues(db, runs[0]);
      if Ascending(next.executed) {
        ExecutedInOrderExactly(next, runs[1..]);
      } else {
        ExecutedGrows(next, runs[1..]);
        if Ascending(After(next, runs[1..]).executed) {
          PrefixAscends(next.executed, After(next, runs[1..]).executed);
        }
      }
    }
  }

  /** The scripts one run executes stand in the order of their names. */
  lemma RunInNameOrder(db: Db, files: seq<Entry>, stopAt: nat, i: nat, j: nat)
    requires Directory(files) && |db.executed| <= i < j < |Applied(db, files, stopAt).executed|
    ensures var done := Applied(db, files, stopAt).executed; Precedes(done[i], done[j])
  {
    var todo := Sort(Pending(db.versions, files));
    TodoIs(db.versions, files);
    LessExactly(todo[i - |db.executed|], todo[j - |db.executed|]);
  }

  /** So, of two numbered with as many digits, the one with the smaller number is first. */
  lemma RunInNumberOrder(db: Db, files: seq<Entry>, stopAt: nat, i: nat, j: nat, n: nat)
    requires Directory(files)
    requires var done := Applied(db, files, stopAt).executed;
             && |db.executed| <= i < |done| && |db.executed| <= j < |done| && n <= |done[i]| && n <= |done[j]|
             && AllDigits(done[i][..n]) && AllDigits(done[j][..n])
             && NumberOf(done[i][..n]) < NumberOf(done[j][..n])
    ensures i < j
  {
    var done := Applied(db, files, stopAt).executed;
    NumberedPrecede(done[i], done[j], n);
    if j < i {
      RunInNameOrder(db, files, stopAt, j, i);
      LessExactly(done[i], done[j]);
      LessExactly(done[j], done[i]);
      LessOrMore(done[i], done[j]);
      assert false;
    }
  }

  /** A script is pending exactly when the directory has it as a file whose name ends in .sql,
      with something before that, and no record names what is before it. */
  lemma PendingExactly(versions: seq<string>, files: seq<Entry>, name: string)
    ensures name in Pending(versions, files) <==>
            (&& |name| > 4 && name[|name| - 4..] == ".sql" && name[..|name| - 4] !in versions
             && Entry(name, false) in files)
  {
    PendingMembers(versions, files, name);
    if IsPending(versions, files, name) {
      var i :| 0 <= i < |files| && IsMigration(files[i]) && files[i].name == name;
      assert files[i] == Entry(name, false);
    }
    if Entry(name, false) in files && |name| > 4 && name[|name| - 4..] == ".sql" {
      var i :| 0 <= i < |files| && files[i] == Entry(name, false);
      assert IsMigration(files[i]);
    }
  }

  lemma OnlyOnePending(db: Db, files: seq<Entry>, name: string)
    requires Pending(db.versions, files) == [name]
    ensures Applied(db, files, 1) == Db(db.versions + [Version(name)], db.executed + [name])
  {
    assert [name][1..] == [];
    assert Sort([name]) == [name];
    assert [name][..1] == [name];
    assert Versions([name]) == [Version(name)];
  }

  lemma NewOneIsPending(a: Entry, b: Entry, versions: seq<string>)
    requires IsMigration(a) && Version(a.name) !in versions
    ensures Pending(versions, [a]) == [a.name]
    ensures Version(b.name) in versions ==> Pending(versions, [a, b]) == [a.name]
  {
    assert [a, b][..1] == [a] && [a][..0] == [];
  }

  /** A script added later but sorting earlier runs later: the order of execution is then
      not the sorted one. */
  lemma LateScriptRunsLate(a: Entry, b: Entry)
    requires IsMigration(a) && IsMigration(b) && Less(a.name, b.name)
    ensures Applied(Applied(EMPTY, [b], 1), [a, b], 1).executed == [b.name, a.name]
  {
    LessOrMore(a.name, b.name);
    VersionInjective(a.name, b.name);
    NewOneIsPending(b, b, []);
    OnlyOnePending(EMPTY, [b], b.name);
    var db := Applied(EMPTY, [b], 1);
    NewOneIsPending(a, b, db.versions);
    OnlyOnePending(db, [a, b], a.name);
  }

  // ---- the code ----

  class Database {
    var versions: seq<string>
    var executed: seq<string>

    constructor ()
      ensures Abstract() == EMPTY
    {
      versions, executed := [], [];
    }

    ghost function Abstract(): Db
      reads this
    {
      Db(versions, executed)
    }

    method LoadApplied() returns (applied: set<string>)
      ensures forall v :: v in applied <==> v in versions
    {
      applied := {};
      for i := 0 to |versions|
        invariant forall v :: v in applied <==> v in versions[..i]
      {
        applied := applied + {versions[i]};
        assert versions[..i + 1] == versions[..i] + [versions[i]];
      }
      assert versions[..|versions|] == versions;
    }

    /** One transaction: the script and its row, or neither. */
    method ApplyOne(name: string, fails: bool) returns (ok: bool)
      modifies this
      ensures ok == (!fails && Version(name) !in old(versions))
      ensures ok && |name| > 4 ==> versions == old(versions) + [name[..|name| - 4]]
      ensures Abstract() == if ok then Db(old(versions) + [Version(name)], old(executed) + [name]) else old(Abstract())
    {
      var version := Version(name);
      if fails || version in versions {
        return false;
      }
      executed := executed + [name];
      versions := versions + [version];
      return true;
    }

    /** Apply's first loop: the scripts of the directory that are not recorded yet. */
    method FindPending(files: seq<Entry>) returns (pending: seq<string>)
      ensures pending == Pending(versions, files)
    {
      var applied := LoadApplied();
      pending := [];
      for i := 0 to |files|
        invariant pending == Pending(versions, files[..i])
      {
        var f := files[i];
        PendingUpTo(versions, files, i);
        if !f.isDir && |f.name| >= 5 && f.name[|f.name| - 4..] == ".sql" {
          var version := f.name[..|f.name| - 4];
          if version !in applied {
            pending := pending + [f.name];
          }
        }
      }
      assert files[..|files|] == files;
    }

    method Apply(files: seq<Entry>, stopAt: nat) returns (ok: bool)
      requires Directory(files) && Faithful(Abstract())
      modifies this
      ensures Abstract() == Applied(old(Abstract()), files, stopAt) && Faithful(Abstract())
      ensures ok == (stopAt >= |Sort(Pending(old(versions), files))|)
      ensures forall i, j :: |old(executed)| <= i < j < |executed| ==> Precedes(executed[i], executed[j])
    {
      var pending := FindPending(files);
      pending := Sort(pending);
      RunKeeps(Abstract(), files, stopAt);
      ApplyInNameOrder(Abstract(), files, stopAt);
      ghost var was := Abstract();
      for i := 0 to |pending|
        invariant i <= stopAt
        invariant Abstract() == Db(was.versions + Versions(pending[..i]), was.executed + pending[..i])
      {
        NotYetRecorded(was, files, i);
        OneMore(was, pending, i);
        ok := ApplyOne(pending[i], i == stopAt);
        if !ok {
          return;
        }
      }
      assert pending[..|pending|] == pending;
      return true;
    }
  }

  lemma ApplyInNameOrder(db: Db, files: seq<Entry>, stopAt: nat)
    requires Directory(files)
    ensures var done := Applied(db, files, stopAt).executed;
            forall i, j :: |db.executed| <= i < j < |done| ==> Precedes(done[i], done[j])
  {
    var done := Applied(db, files, stopAt).executed;
    forall i, j | |db.executed| <= i < j < |done| ensures Precedes(done[i], done[j]) {
      RunInNameOrder(db, files, stopAt, i, j);
    }
  }

  lemma PendingUpTo(versions: seq<string>, files: seq<Entry>, i: nat)
    requires i < |files|
    ensures Pending(versions, files[..i + 1]) ==
            Pending(versions, files[..i])
            + if IsMigration(files[i]) && Version(files[i].name) !in versions then [files[i].name] else []
  {
    assert files[..i + 1][..i] == files[..i];
  }

  lemma OneMore(db: Db, todo: seq<string>, i: nat)
    requires i < |todo|
    ensures db.versions + Versions(todo[..i + 1]) == db.versions + Versions(todo[..i]) + [Version(todo[i])]
    ensures db.executed + todo[..i + 1] == db.executed + todo[..i] + [todo[i]]
  {
    assert todo[..i + 1] == todo[..i] + [todo[i]];
    VersionsJoin(todo[..i], [todo[i]]);
  }

  lemma NotYetRecorded(db: Db, files: seq<Entry>, i: nat)
    requires Directory(files) && i < |Sort(Pending(db.versions, files))|
    ensures var todo := Sort(Pending(db.versions, files)); Version(todo[i]) !in db.versions + Versions(todo[..i])
  {
    var todo := Sort(Pending(db.versions, files));
    TodoIs(db.versions, files);
    AscendingDistinct(todo);
    assert todo[i] in todo && IsPending(db.versions, files, todo[i]);
    assert forall j :: 0 <= j < i ==> todo[..i][j] in todo && IsPending(db.versions, files, todo[..i][j]);
    VersionMember(todo[..i], todo[i]);
  }
}
