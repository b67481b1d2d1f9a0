/** The ordered, checksummed migration runner and its ledger. */
module Migrations {
  import opened Wrappers
  import opened IngestionModels
  import opened Text
  import ContentText

  const LEDGER := "schema_migrations"

  datatype Migration = Migration(version: int, name: string, statements: seq<string>)

  /** A ledger row. */
  datatype Applied = Applied(version: int, name: string, checksum: string)

  /**
   * The tables of the database by name, and the ledger rows in version order. `executed` records
   * the migrations whose statements were committed.
   */
  datatype Schema = Schema(tables: set<string>, ledger: seq<Applied>, executed: seq<Migration>)

  const EMPTY_SCHEMA := Schema({}, [], [])

  datatype MigrationError = InvalidRegistry | Incompatible | Operational

  /** What a statement makes of the tables; `None` stands for an SQL error. */
  type Executor = (set<string>, string) -> Option<set<string>>

  function Stripped(statements: seq<string>): seq<string> {
    seq(|statements|, i requires 0 <= i < |statements| => Strip(statements[i]))
  }

  function Checksum(env: Env, m: Migration): string {
    env.hash(Join(Stripped(m.statements), "\n-- migration statement --\n"))
  }

  function RowOf(env: Env, m: Migration): Applied {
    Applied(m.version, m.name, Checksum(env, m))
  }

  // ---- checks ----

  /** Contiguous versions from 1 and unique names. */
  predicate ValidRegistry(registry: seq<Migration>) {
    && registry != []
    && (forall i :: 0 <= i < |registry| ==> registry[i].version == i + 1)
    && (forall i, j :: 0 <= i < j < |registry| ==> registry[i].name != registry[j].name)
  }

  /** `_read_applied_migrations` */
  function ReadLedger(s: Schema): Result<seq<Applied>, MigrationError> {
    if LEDGER in s.tables then Ok(s.ledger)
    else if s.tables != {} then Err(Incompatible)
    else Ok([])
  }

  /** The registry entry for a version. */
  function ByVersion(registry: seq<Migration>, version: int): Option<Migration> {
    if registry == [] then None
    else if registry[|registry| - 1].version == version then Some(registry[|registry| - 1])
    else ByVersion(registry[..|registry| - 1], version)
  }

  /** The row is what applying the registry's migration of its version would have written. */
  predicate Matches(env: Env, registry: seq<Migration>, row: Applied) {
    match ByVersion(registry, row.version)
    case None => false
    case Some(m) => row.name == m.name && row.checksum == Checksum(env, m)
  }

  /** `_validate_applied_migrations`; no error means the ledger is accepted. */
  predicate Accepted(env: Env, applied: seq<Applied>, registry: seq<Migration>)
    requires registry != []
  {
    applied != [] ==>
      && applied[|applied| - 1].version <= registry[|registry| - 1].version
      && |applied| == applied[|applied| - 1].version
      && (forall i :: 0 <= i < |applied| ==> applied[i].version == i + 1)
      && (forall i :: 0 <= i < |applied| ==> Matches(env, registry, applied[i]))
  }

  function ReadAccepted(env: Env, s: Schema, registry: seq<Migration>): Result<seq<Applied>, MigrationError>
    requires registry != []
  {
    var applied :- ReadLedger(s);
    if Accepted(env, applied, registry) then Ok(applied) else Err(Incompatible)
  }

  // ---- applying ----

  function RunStatements(execute: Executor, tables: set<string>, statements: seq<string>): Option<set<string>> {
    if statements == [] then Some(tables)
    else
      match RunStatements(execute, tables, statements[..|statements| - 1])
      case None => None
      case Some(before) => execute(before, statements[|statements| - 1])
  }

  /** No statement, and one. */
  lemma OneStatementRuns(execute: Executor, tables: set<string>, statement: string)
    ensures RunStatements(execute, tables, []) == Some(tables)
    ensures RunStatements(execute, tables, [statement]) == execute(tables, statement)
  {
    assert [statement][..0] == [];
  }

  /** Statements in a row: each one works on what the ones before it made, and a failure ends the run. */
  lemma {:induction false} StatementsInOrder(execute: Executor, tables: set<string>, a: seq<string>, b: seq<string>)
    ensures RunStatements(execute, tables, a + b)
         == match RunStatements(execute, tables, a)
            case None => None
            case Some(between) => RunStatements(execute, between, b)
    ensures |b| == 1 ==> RunStatements(execute, tables, b) == execute(tables, b[0])
  {
    if |b| == 1 {
      OneStatementRuns(execute, tables, b[0]);
      assert b == [b[0]];
    }
    if b == [] {
      assert a + b == a;
    } else {
      StatementsInOrder(execute, tables, a, b[..|b| - 1]);
      assert (a + b)[..|a + b| - 1] == a + b[..|b| - 1];
    }
  }

  /** The statements of some migrations, in order. */
  function Script(migrations: seq<Migration>): seq<string> {
    if migrations == [] then [] else migrations[0].statements + Script(migrations[1..])
  }

  lemma {:induction false} ScriptAppends(migrations: seq<Migration>, m: Migration)
    ensures Script(migrations + [m]) == Script(migrations) + m.statements
  {
    if migrations == [] {
      assert [m][1..] == [];
    } else {
      assert (migrations + [m])[1..] == migrations[1..] + [m];
      ScriptAppends(migrations[1..], m);
      assert migrations[0].statements + (Script(migrations[1..]) + m.statements)
          == migrations[0].statements + Script(migrations[1..]) + m.statements;
    }
  }

  /** One transaction: apply the migration unless the ledger has it. */
  function ApplyIfNeeded(env: Env, execute: Executor, s: Schema, m: Migration, registry: seq<Migration>)
    : Result<Schema, MigrationError>
    requires registry != []
  {
    var applied :- ReadAccepted(env, s, registry);
    if exists i :: 0 <= i < |applied| && applied[i].version == m.version then Ok(s)
    else if m.version != (if applied == [] then 0 else applied[|applied| - 1].version) + 1 then Err(Incompatible)
    else
      match RunStatements(execute, s.tables, m.statements)
      case None => Err(Operational)
      case Some(tables) =>
        if LEDGER !in tables then Err(Operational)
        else Ok(Schema(tables, applied + [RowOf(env, m)], s.executed + [m]))
  }

  /** The loop over the first `n` migrations: the schema reached, and the failure that ended it. */
  function ApplyFirst(env: Env, execute: Executor, s: Schema, registry: seq<Migration>, n: nat)
    : (Schema, Option<MigrationError>)
    requires registry != [] && n <= |registry|
  {
    if n == 0 then (s, None)
    else
      var (before, failure) := ApplyFirst(env, execute, s, registry, n - 1);
      if failure.Some? then (before, failure)
      else
        match ApplyIfNeeded(env, execute, before, registry[n - 1], registry)
        case Err(e) => (before, Some(e))
        case Ok(after) => (after, None)
  }

  function CurrentVersion(applied: seq<Applied>): int {
    if applied == [] then 0 else applied[|applied| - 1].version
  }

  /** `migrate`: the schema it leaves, and the version or the error. */
  function Migrate(env: Env, execute: Executor, s: Schema, registry: seq<Migration>)
    : (Schema, Result<int, MigrationError>)
  {
    if !ValidRegistry(registry) then (s, Err(InvalidRegistry))
    else if ReadAccepted(env, s, registry).Err? then (s, Err(ReadAccepted(env, s, registry).error))
    else
      var (after, failure) := ApplyFirst(env, execute, s, registry, |registry|);
      if failure.Some? then (after, Err(failure.value))
      else
        match ReadAccepted(env, after, registry)
        case Err(e) => (after, Err(e))
        case Ok(applied) => (after, Ok(CurrentVersion(applied)))
  }

  // ---- the ledger is a prefix of the registry ----

  ghost predicate IsPrefix(env: Env, applied: seq<Applied>, registry: seq<Migration>) {
    && |applied| <= |registry|
    && forall i :: 0 <= i < |applied| ==> applied[i] == RowOf(env, registry[i])
  }

  lemma {:induction false} VersionFound(registry: seq<Migration>, i: nat)
    requires (forall k :: 0 <= k < |registry| ==> registry[k].version == k + 1) && i < |registry|
    ensures ByVersion(registry, i + 1) == Some(registry[i])
  {
    if i < |registry| - 1 {
      VersionFound(registry[..|registry| - 1], i);
    }
  }

  /** The checks accept a ledger exactly when it is a prefix of the registry, row for row. */
  lemma AcceptedIffPrefix(env: Env, applied: seq<Applied>, registry: seq<Migration>)
    requires ValidRegistry(registry)
    ensures Accepted(env, applied, registry) <==> IsPrefix(env, applied, registry)
  {
    forall i | 0 <= i < |applied| && i < |registry|
      ensures ByVersion(registry, i + 1) == Some(registry[i])
    {
      VersionFound(registry, i);
    }
    if Accepted(env, applied, registry) && applied != [] {
      assert |applied| <= |registry|;
      forall i | 0 <= i < |applied|
        ensures applied[i] == RowOf(env, registry[i])
      {
        assert Matches(env, registry, applied[i]);
      }
    }
    if IsPrefix(env, applied, registry) && applied != [] {
      forall i | 0 <= i < |applied|
        ensures applied[i].version == i + 1 && Matches(env, registry, applied[i])
      {
        assert applied[i] == RowOf(env, registry[i]);
      }
    }
  }

  // ---- what the checksums tell ----

  /** The statements without the space around them, one text. */
  function StatementText(m: Migration): string {
    Join(Stripped(m.statements), "\n-- migration statement --\n")
  }

  /** Without collisions, a checksum stands for one text of statements. */
  lemma ChecksumIff(env: Env, a: Migration, b: Migration)
    requires CollisionFree(env)
    ensures Checksum(env, a) == Checksum(env, b) <==> StatementText(a) == StatementText(b)
  {
    hide Join, Stripped;
  }

  /** Space around the statements does not count. */
  lemma {:induction false} SpacingIgnored(env: Env, m: Migration, left: seq<string>, right: seq<string>)
    requires |left| == |right| == |m.statements|
    requires forall i :: 0 <= i < |left| ==> ContentText.AllSpace(left[i]) && ContentText.AllSpace(right[i])
    ensures var spaced := seq(|left|, i requires 0 <= i < |left| => left[i] + m.statements[i] + right[i]);
            Checksum(env, m.(statements := spaced)) == Checksum(env, m)
  {
    hide Strip, Join, ContentText.AllSpace;
    var spaced := seq(|left|, i requires 0 <= i < |left| => left[i] + m.statements[i] + right[i]);
    forall i | 0 <= i < |left|
      ensures Strip(spaced[i]) == Strip(m.statements[i])
    {
      ContentText.StripIgnoresOuterSpace(left[i], m.statements[i], right[i]);
    }
    assert Stripped(spaced) == Stripped(m.statements);
  }

  /** The ledger that these migrations wrote. */
  function Written(env: Env, migrations: seq<Migration>): seq<Applied> {
    seq(|migrations|, i requires 0 <= i < |migrations| => RowOf(env, migrations[i]))
  }

  /** The registry begins with these migrations: the same versions, names and statements. */
  ghost predicate SameBeginning(migrations: seq<Migration>, registry: seq<Migration>) {
    && |migrations| <= |registry|
    && forall i :: 0 <= i < |migrations| ==>
         && migrations[i].version == registry[i].version && migrations[i].name == registry[i].name
         && StatementText(migrations[i]) == StatementText(registry[i])
  }

  /**
   * The ledger of an earlier registry is accepted exactly when the registry still begins with it.
   * If a statement, a name or a version has changed since, a migrator refuses the database and
   * leaves it as it is.
   */
  lemma ChangedMigrationRefused(env: Env, execute: Executor, s: Schema, migrations: seq<Migration>,
                                registry: seq<Migration>)
    requires ValidRegistry(registry) && CollisionFree(env)
    requires LEDGER in s.tables && s.ledger == Written(env, migrations)
    ensures ReadAccepted(env, s, registry).Ok? <==> SameBeginning(migrations, registry)
    ensures !SameBeginning(migrations, registry) ==> Migrate(env, execute, s, registry) == (s, Err(Incompatible))
  {
    hide Checksum, StatementText, Accepted, CollisionFree, ValidRegistry, ApplyFirst;
    AcceptedIffPrefix(env, s.ledger, registry);
    forall i | 0 <= i < |migrations| && i < |registry|
      ensures s.ledger[i] == RowOf(env, registry[i])
         <==> && migrations[i].version == registry[i].version && migrations[i].name == registry[i].name
              && StatementText(migrations[i]) == StatementText(registry[i])
    {
      ChecksumIff(env, migrations[i], registry[i]);
    }
  }

  /** Tables without a ledger, or a ledger that is no prefix: a schema that no migrator may touch. */
  ghost predicate Compatible(env: Env, s: Schema, registry: seq<Migration>) {
    && (LEDGER !in s.tables ==> s.tables == {} && s.ledger == [])
    && IsPrefix(env, s.ledger, registry)
  }

  /** What has been executed since a schema with `from` rows: the next migrations, each once. */
  ghost predicate ExecutedSince(s: Schema, registry: seq<Migration>, executed: seq<Migration>, from: nat) {
    from <= |s.ledger| <= |registry| && s.executed == executed + registry[from..|s.ledger|]
  }

  /** One transaction extends the ledger by at most the next migration, and only by it. */
  lemma ApplyKeepsPrefix(env: Env, execute: Executor, s: Schema, k: nat, registry: seq<Migration>)
    requires ValidRegistry(registry) && Compatible(env, s, registry) && k < |registry|
    ensures match ApplyIfNeeded(env, execute, s, registry[k], registry)
            case Err(e) => true
            case Ok(after) =>
              && Compatible(env, after, registry) && |after.ledger| >= k + 1
              && (if |s.ledger| > k then after == s
                  else |s.ledger| == k && after.ledger == s.ledger + [RowOf(env, registry[k])]
                       && after.executed == s.executed + [registry[k]]
                       && RunStatements(execute, s.tables, registry[k].statements) == Some(after.tables))
    ensures |s.ledger| > k ==> ApplyIfNeeded(env, execute, s, registry[k], registry) == Ok(s)
    ensures |s.ledger| == k ==>
              var made := RunStatements(execute, s.tables, registry[k].statements);
              if made.Some? && LEDGER in made.value then ApplyIfNeeded(env, execute, s, registry[k], registry).Ok?
              else ApplyIfNeeded(env, execute, s, registry[k], registry) == Err(Operational)
  {
    hide Checksum, RunStatements, Accepted, IsPrefix;
    AcceptedIffPrefix(env, s.ledger, registry);
    PrefixVersions(env, s.ledger, registry);
    PrefixFits(env, s.ledger, registry, k);
    if |s.ledger| > k {
      assert s.ledger[k].version == registry[k].version;
    }
  }

  lemma PrefixVersions(env: Env, applied: seq<Applied>, registry: seq<Migration>)
    requires ValidRegistry(registry) && IsPrefix(env, applied, registry)
    ensures |applied| <= |registry| && forall i :: 0 <= i < |applied| ==> applied[i].version == i + 1
  {
    hide Checksum;
    forall i | 0 <= i < |applied|
      ensures applied[i].version == i + 1
    {
      assert applied[i] == RowOf(env, registry[i]);
    }
  }

  lemma PrefixFits(env: Env, applied: seq<Applied>, registry: seq<Migration>, k: nat)
    requires IsPrefix(env, applied, registry) && k < |registry|
    ensures |applied| == k ==> IsPrefix(env, applied + [RowOf(env, registry[k])], registry)
  {
    hide RowOf;
  }
}

/** The runner on a schema that it changes in place. */
module MigrationRunner {
  import opened Wrappers
  import opened IngestionModels
  import opened Migrations

  class SqliteSchema {
    var tables: set<string>
    var ledger: seq<Applied>
    ghost var executed: seq<Migration>

    constructor ()
      ensures State() == EMPTY_SCHEMA
    {
      tables, ledger := {}, [];
      executed := [];
    }

    ghost function State(): Schema
      reads this
    {
      Schema(tables, ledger, executed)
    }

    /** The ledger rows, if the checks accept them. */
    method ReadValidated(env: Env, registry: seq<Migration>) returns (r: Result<seq<Applied>, MigrationError>)
      requires registry != []
      ensures r == ReadAccepted(env, State(), registry)
    {
      if LEDGER !in tables {
        if tables != {} {
          return Err(Incompatible);
        }
        return Ok([]);
      }
      if !Accepted(env, ledger, registry) {
        return Err(Incompatible);
      }
      return Ok(ledger);
    }

    /** One transaction; a statement that fails leaves everything as it was. */
    method Apply(env: Env, execute: Executor, m: Migration, registry: seq<Migration>)
      returns (failure: Option<MigrationError>)
      requires registry != []
      modifies this
      ensures failure.None? ==> ApplyIfNeeded(env, execute, old(State()), m, registry) == Ok(State())
      ensures failure.Some? ==>
                ApplyIfNeeded(env, execute, old(State()), m, registry) == Err(failure.value) && State() == old(State())
    {
      var applied := ReadValidated(env, registry);
      if applied.Err? {
        return Some(applied.error);
      }
      for i := 0 to |applied.value|
        invariant forall j :: 0 <= j < i ==> applied.value[j].version != m.version
      {
        if applied.value[i].version == m.version {
          return None;
        }
      }
      if m.version != CurrentVersion(applied.value) + 1 {
        return Some(Incompatible);
      }
      var current := tables;
      for i := 0 to |m.statements|
        invariant RunStatements(execute, tables, m.statements[..i]) == Some(current)
      {
        assert m.statements[..i + 1][..i] == m.statements[..i];
        var next := execute(current, m.statements[i]);
        if next.None? {
          StatementFails(execute, tables, m.statements, i + 1);
          return Some(Operational);
        }
        current := next.value;
      }
      assert m.statements[..|m.statements|] == m.statements;
      if LEDGER !in current {
        return Some(Operational);
      }
      tables := current;
      ledger := applied.value + [RowOf(env, m)];
      executed := executed + [m];
      return None;
    }

    method MigrateAll(env: Env, execute: Executor, registry: seq<Migration>) returns (r: Result<int, MigrationError>)
      modifies this
      ensures Migrate(env, execute, old(State()), registry) == (State(), r)
    {
      if !ValidRegistry(registry) {
        return Err(InvalidRegistry);
      }
      var before := ReadValidated(env, registry);
      if before.Err? {
        return Err(before.error);
      }
      ghost var start := State();
      for i := 0 to |registry|
        invariant ApplyFirst(env, execute, start, registry, i) == (State(), None)
      {
        ghost var current := State();
        var failure := Apply(env, execute, registry[i], registry);
        if failure.Some? {
          ApplyFails(env, execute, start, registry, i + 1, |registry|);
          return Err(failure.value);
        }
      }
      var applied := ReadValidated(env, registry);
      if applied.Err? {
        return Err(applied.error);
      }
      return Ok(CurrentVersion(applied.value));
    }
  }

  lemma {:induction false} StatementFails(execute: Executor, tables: set<string>, statements: seq<string>, n: nat)
    requires n <= |statements| && RunStatements(execute, tables, statements[..n]).None?
    ensures RunStatements(execute, tables, statements).None?
  {
    if n < |statements| {
      assert statements[..|statements| - 1][..n] == statements[..n];
      StatementFails(execute, tables, statements[..|statements| - 1], n);
    } else {
      assert statements[..n] == statements;
    }
  }

  lemma {:induction false} ApplyFails(env: Env, execute: Executor, s: Schema, registry: seq<Migration>, n: nat, m: nat)
    requires registry != [] && n <= m <= |registry| && ApplyFirst(env, execute, s, registry, n).1.Some?
    ensures ApplyFirst(env, execute, s, registry, m) == ApplyFirst(env, execute, s, registry, n)
  {
    hide ApplyIfNeeded;
    if n < m {
      ApplyFails(env, execute, s, registry, n, m - 1);
    }
  }
}

/** One migrator and many: what they keep of the ledger. */
module MigrationRuns {
  import opened Wrappers
  import opened IngestionModels
  import opened Migrations

  /** The tables are what the statements of the migrations since `s` make of its tables, in order. */
  predicate Made(execute: Executor, s: Schema, after: Schema, registry: seq<Migration>) {
    && |s.ledger| <= |after.ledger| <= |registry|
    && RunStatements(execute, s.tables, Script(registry[|s.ledger|..|after.ledger|])) == Some(after.tables)
  }

  /** Every migration that the ledger lacks up to `n` runs to its end with the ledger among the tables. */
  predicate RunsThrough(execute: Executor, s: Schema, registry: seq<Migration>, n: nat) {
    |s.ledger| <= n <= |registry| ==>
      forall k: nat :: |s.ledger| < k <= n ==>
        var made := RunStatements(execute, s.tables, Script(registry[|s.ledger|..k]));
        made.Some? && LEDGER in made.value
  }

  /** The loop ends early exactly when one of the migrations does not run to its end. */
  lemma {:induction false} FirstFailure(env: Env, execute: Executor, s: Schema, registry: seq<Migration>, n: nat)
    requires ValidRegistry(registry) && Compatible(env, s, registry) && n <= |registry|
    ensures var failure := ApplyFirst(env, execute, s, registry, n).1;
      failure == if RunsThrough(execute, s, registry, n) then None else Some(Operational)
  {
    hide ApplyIfNeeded, Compatible, ExecutedSince, Made, RunStatements, RunsThrough;
    ApplyFirstKeeps(env, execute, s, registry, n);
    if n > |s.ledger| {
      FirstFailure(env, execute, s, registry, n - 1);
      ApplyFirstKeeps(env, execute, s, registry, n - 1);
      var (before, failure) := ApplyFirst(env, execute, s, registry, n - 1);
      if failure.None? {
        ApplyKeepsPrefix(env, execute, before, n - 1, registry);
        RunsFurther(execute, s, before, registry, n - 1);
      } else {
        RunsLess(execute, s, registry, n);
      }
    } else {
      RunsAlready(execute, s, registry, n);
    }
  }

  lemma RunsAlready(execute: Executor, s: Schema, registry: seq<Migration>, n: nat)
    requires n <= |s.ledger|
    ensures RunsThrough(execute, s, registry, n)
  {
  }

  lemma RunsLess(execute: Executor, s: Schema, registry: seq<Migration>, n: nat)
    requires |s.ledger| < n <= |registry|
    ensures RunsThrough(execute, s, registry, n) ==> RunsThrough(execute, s, registry, n - 1)
  {
    hide RunStatements, Script;
  }

  lemma RunsFurther(execute: Executor, s: Schema, before: Schema, registry: seq<Migration>, n: nat)
    requires |s.ledger| <= n < |registry| && |before.ledger| == n
    requires Made(execute, s, before, registry) && RunsThrough(execute, s, registry, n)
    ensures var made := RunStatements(execute, before.tables, registry[n].statements);
      RunsThrough(execute, s, registry, n + 1) <==> made.Some? && LEDGER in made.value
  {
    hide RunStatements, Script;
    var from := |s.ledger|;
    assert registry[from..n + 1] == registry[from..n] + [registry[n]];
    ScriptAppends(registry[from..n], registry[n]);
    StatementsInOrder(execute, s.tables, Script(registry[from..n]), registry[n].statements);
  }

  lemma NothingMade(execute: Executor, s: Schema, registry: seq<Migration>)
    requires |s.ledger| <= |registry|
    ensures Made(execute, s, s, registry)
  {
    assert registry[|s.ledger|..|s.ledger|] == [];
  }

  lemma MadeStep(execute: Executor, s: Schema, before: Schema, after: Schema, registry: seq<Migration>)
    requires Made(execute, s, before, registry)
    requires after == before
          || (|before.ledger| < |registry| && |after.ledger| == |before.ledger| + 1
              && RunStatements(execute, before.tables, registry[|before.ledger|].statements) == Some(after.tables))
    ensures Made(execute, s, after, registry)
  {
    hide RunStatements, Script;
    if after != before {
      var (from, n) := (|s.ledger|, |before.ledger|);
      assert registry[from..n + 1] == registry[from..n] + [registry[n]];
      ScriptAppends(registry[from..n], registry[n]);
      StatementsInOrder(execute, s.tables, Script(registry[from..n]), registry[n].statements);
    }
  }

  /** One run alone: the ledger stays a prefix and every migration is executed at most once. */
  lemma {:induction false} ApplyFirstKeeps(env: Env, execute: Executor, s: Schema, registry: seq<Migration>, n: nat)
    requires ValidRegistry(registry) && Compatible(env, s, registry) && n <= |registry|
    ensures var (after, failure) := ApplyFirst(env, execute, s, registry, n);
      && Compatible(env, after, registry)
      && ExecutedSince(after, registry, s.executed, |s.ledger|) && Made(execute, s, after, registry)
      && (failure.None? ==> |after.ledger| >= n) && (|after.ledger| <= n || |after.ledger| == |s.ledger|)
      && (n <= |s.ledger| ==> after == s && failure.None?)
  {
    hide ApplyIfNeeded, Compatible, ExecutedSince, Made, RunStatements;
    if n == 0 {
      NothingExecuted(env, s, registry);
      NothingMade(execute, s, registry);
    } else {
      ApplyFirstKeeps(env, execute, s, registry, n - 1);
      var (before, failure) := ApplyFirst(env, execute, s, registry, n - 1);
      if failure.None? {
        ApplyKeepsPrefix(env, execute, before, n - 1, registry);
        var after := ApplyFirst(env, execute, s, registry, n).0;
        ExecutedStep(before, after, registry, s.executed, |s.ledger|);
        MadeStep(execute, s, before, after, registry);
      }
    }
  }

  lemma NothingExecuted(env: Env, s: Schema, registry: seq<Migration>)
    requires Compatible(env, s, registry)
    ensures ExecutedSince(s, registry, s.executed, |s.ledger|) && |s.ledger| <= |registry|
  {
    assert registry[|s.ledger|..|s.ledger|] == [];
  }

  /**
   * A database that is not compatible with the registry is never changed; on a compatible one a
   * run completes, with the full version and the complete ledger, exactly when the statements of
   * each missing migration run to their end. Completed or not, the tables are what the statements
   * of the migrations that it recorded make of the ones before.
   */
  lemma MigrateCompletes(env: Env, execute: Executor, s: Schema, registry: seq<Migration>)
    requires ValidRegistry(registry) && (LEDGER !in s.tables ==> s.ledger == [])
    ensures var (after, r) := Migrate(env, execute, s, registry);
      && (!Compatible(env, s, registry) ==> after == s && r == Err(Incompatible))
      && (Compatible(env, s, registry) ==>
            && Compatible(env, after, registry) && ExecutedSince(after, registry, s.executed, |s.ledger|)
            && Made(execute, s, after, registry)
            && r == (if RunsThrough(execute, s, registry, |registry|) then Ok(|registry|) else Err(Operational))
            && (r.Ok? ==> |after.ledger| == |registry|))
  {
    hide RunsThrough, Made, RunStatements, Accepted, ApplyFirst, ExecutedSince, RowOf;
    AcceptedIffPrefix(env, s.ledger, registry);
    if Compatible(env, s, registry) {
      FirstFailure(env, execute, s, registry, |registry|);
      ApplyFirstKeeps(env, execute, s, registry, |registry|);
      var (after, failure) := ApplyFirst(env, execute, s, registry, |registry|);
      AcceptedIffPrefix(env, after.ledger, registry);
      if failure.None? {
        FullVersion(env, after, registry);
      }
    }
  }

  /** A registry is refused exactly when it is empty, its versions do not count from one, or a name repeats. */
  lemma RegistryRefusedIff(env: Env, execute: Executor, s: Schema, registry: seq<Migration>)
    ensures Migrate(env, execute, s, registry) == (s, Err(InvalidRegistry))
       <==> || registry == []
            || (exists i :: 0 <= i < |registry| && registry[i].version != i + 1)
            || (exists i, j :: 0 <= i < j < |registry| && registry[i].name == registry[j].name)
  {
    hide ReadAccepted, Accepted, ApplyFirst, CurrentVersion;
    if ValidRegistry(registry) && ReadAccepted(env, s, registry).Ok? {
      AppliesOrNot(env, execute, s, registry, |registry|);
      ReadFailure(env, ApplyFirst(env, execute, s, registry, |registry|).0, registry);
    }
    ReadFailure(env, s, registry);
  }

  lemma ReadFailure(env: Env, s: Schema, registry: seq<Migration>)
    ensures registry != [] && ReadAccepted(env, s, registry).Err? ==> ReadAccepted(env, s, registry).error.Incompatible?
  {
    hide Accepted;
  }

  lemma {:induction false} AppliesOrNot(env: Env, execute: Executor, s: Schema, registry: seq<Migration>, n: nat)
    requires registry != [] && n <= |registry|
    ensures ApplyFirst(env, execute, s, registry, n).1 != Some(InvalidRegistry)
  {
    hide Accepted, RunStatements;
    if n > 0 {
      AppliesOrNot(env, execute, s, registry, n - 1);
      ReadFailure(env, ApplyFirst(env, execute, s, registry, n - 1).0, registry);
    }
  }

  lemma FullVersion(env: Env, s: Schema, registry: seq<Migration>)
    requires ValidRegistry(registry) && IsPrefix(env, s.ledger, registry) && |s.ledger| == |registry|
    ensures CurrentVersion(s.ledger) == |registry|
  {
    assert s.ledger[|registry| - 1] == RowOf(env, registry[|registry| - 1]);
  }

  /** A second run changes nothing and returns the same version. */
  lemma SecondRunChangesNothing(env: Env, execute: Executor, s: Schema, registry: seq<Migration>)
    requires ValidRegistry(registry) && (LEDGER !in s.tables ==> s.ledger == [])
    requires Migrate(env, execute, s, registry).1.Ok?
    ensures var (after, r) := Migrate(env, execute, s, registry);
      forall again: Executor :: Migrate(env, again, after, registry) == (after, r)
  {
    MigrateCompletes(env, execute, s, registry);
    var after := Migrate(env, execute, s, registry).0;
    AcceptedIffPrefix(env, after.ledger, registry);
    forall again: Executor
      ensures Migrate(env, again, after, registry) == (after, Migrate(env, execute, s, registry).1)
    {
      ApplyFirstKeeps(env, again, after, registry, |registry|);
    }
  }

  // ---- many migrators ----

  /** How far one migrator has come through the registry. */
  datatype Phase = Starting | Applying(next: nat) | Finished(version: int) | Refused(error: MigrationError)

  datatype System = System(schema: Schema, phases: map<nat, Phase>)

  /** The next transaction of one migrator; `execute` is what the statements do this time. */
  datatype Step = Step(migrator: nat, execute: Executor)

  function PhaseOf(s: System, migrator: nat): Phase {
    if migrator in s.phases then s.phases[migrator] else Starting
  }

  function Next(env: Env, s: Schema, phase: Phase, execute: Executor, registry: seq<Migration>): (Schema, Phase)
    requires registry != []
  {
    match phase
    case Starting =>
      (match ReadAccepted(env, s, registry)
       case Ok(_) => (s, Applying(0))
       case Err(e) => (s, Refused(e)))
    case Applying(k) =>
      if k < |registry| then
        match ApplyIfNeeded(env, execute, s, registry[k], registry)
        case Ok(after) => (after, Applying(k + 1))
        case Err(e) => (s, Refused(e))
      else
        (match ReadAccepted(env, s, registry)
         case Ok(applied) => (s, Finished(CurrentVersion(applied)))
         case Err(e) => (s, Refused(e)))
    case _ => (s, phase)
  }

  function Run(env: Env, s: Schema, registry: seq<Migration>, steps: seq<Step>): System
    requires registry != []
  {
    if steps == [] then System(s, map[])
    else
      var before := Run(env, s, registry, steps[..|steps| - 1]);
      var step := steps[|steps| - 1];
      var (schema, phase) := Next(env, before.schema, PhaseOf(before, step.migrator), step.execute, registry);
      System(schema, before.phases[step.migrator := phase])
  }

  /** A migrator that has passed a migration sees it in the ledger. */
  ghost predicate PhaseOk(schema: Schema, phase: Phase, registry: seq<Migration>) {
    match phase
    case Applying(k) => k <= |schema.ledger| && k <= |registry|
    case Finished(version) => version == |registry| && |schema.ledger| == |registry|
    case _ => true
  }

  /**
   * Under every interleaving of migrators with one registry, the ledger is a prefix of the
   * registry with its names and checksums, every migration is executed at most once and in
   * order, and a migrator that finished returned the full version over the complete ledger.
   */
  lemma {:induction false} InterleavedMigrators(env: Env, s: Schema, registry: seq<Migration>, steps: seq<Step>)
    requires ValidRegistry(registry) && Compatible(env, s, registry)
    ensures var system := Run(env, s, registry, steps);
      && Compatible(env, system.schema, registry)
      && ExecutedSince(system.schema, registry, s.executed, |s.ledger|)
      && forall i :: i in system.phases ==> PhaseOk(system.schema, system.phases[i], registry)
  {
    hide Accepted, ReadAccepted, ApplyIfNeeded;
    if steps == [] {
      assert registry[|s.ledger|..|s.ledger|] == [];
    } else {
      InterleavedMigrators(env, s, registry, steps[..|steps| - 1]);
      var before := Run(env, s, registry, steps[..|steps| - 1]);
      var step := steps[|steps| - 1];
      NextKeeps(env, before.schema, PhaseOf(before, step.migrator), step.execute, registry);
      var after := Next(env, before.schema, PhaseOf(before, step.migrator), step.execute, registry).0;
      ExecutedStep(before.schema, after, registry, s.executed, |s.ledger|);
    }
  }

  lemma NextKeeps(env: Env, s: Schema, phase: Phase, execute: Executor, registry: seq<Migration>)
    requires ValidRegistry(registry) && Compatible(env, s, registry) && PhaseOk(s, phase, registry)
    ensures var (after, next) := Next(env, s, phase, execute, registry);
      && Compatible(env, after, registry) && PhaseOk(after, next, registry)
      && (after == s || (|s.ledger| < |registry| && |after.ledger| == |s.ledger| + 1
                         && after.executed == s.executed + [registry[|s.ledger|]]))
  {
    AcceptedIffPrefix(env, s.ledger, registry);
    if phase.Applying? {
      if phase.next < |registry| {
        ApplyKeepsPrefix(env, execute, s, phase.next, registry);
      } else {
        assert s.ledger[|registry| - 1] == RowOf(env, registry[|registry| - 1]);
      }
    }
  }

  lemma ExecutedStep(s: Schema, after: Schema, registry: seq<Migration>, executed: seq<Migration>, from: nat)
    requires ExecutedSince(s, registry, executed, from)
    requires after == s || (|s.ledger| < |registry| && |after.ledger| == |s.ledger| + 1
                            && after.executed == s.executed + [registry[|s.ledger|]])
    ensures ExecutedSince(after, registry, executed, from)
  {
    if after != s {
      var n := |s.ledger|;
      assert registry[from..n + 1] == registry[from..n] + [registry[n]];
    }
  }
}

/** Concrete cases: a changed statement is refused, and statements that hold the separator. */
module MigrationExamples {
  import opened Wrappers
  import opened IngestionModels
  import opened Text
  import opened Migrations
  import MigrationRuns

  function Create(statement: string): Migration {
    Migration(1, "create", [statement])
  }

  /** The database that this migration has created. */
  function CreatedBy(env: Env, m: Migration): Schema {
    Schema({LEDGER, "a"}, [Applied(1, "create", Checksum(env, m))], [m])
  }

  /** The same version and name with another statement is refused, and the same statement is not. */
  lemma ChangedStatementRefused(env: Env, execute: Executor)
    requires CollisionFree(env)
    ensures var s := CreatedBy(env, Create("CREATE TABLE a"));
      && Migrate(env, execute, s, [Create("CREATE TABLE b")]) == (s, Err(Incompatible))
      && Migrate(env, execute, s, [Create("CREATE TABLE a\n")]) == (s, Ok(1))
  {
    hide Strip, Checksum, StatementText, Accepted, Migrate;
    var s := CreatedBy(env, Create("CREATE TABLE a"));
    TableTexts(env);
    assert s.ledger == Written(env, [Create("CREATE TABLE a")]);
    var (b, a) := ([Create("CREATE TABLE b")], [Create("CREATE TABLE a\n")]);
    assert ValidRegistry(b) && ValidRegistry(a);
    assert StatementText([Create("CREATE TABLE a")][0]) != StatementText(b[0]);
    ChangedMigrationRefused(env, execute, s, [Create("CREATE TABLE a")], b);
    ChangedMigrationRefused(env, execute, s, [Create("CREATE TABLE a")], a);
    CompleteIsLeft(env, execute, s, a);
  }

  lemma CompleteIsLeft(env: Env, execute: Executor, s: Schema, registry: seq<Migration>)
    requires ValidRegistry(registry) && ReadAccepted(env, s, registry).Ok? && LEDGER in s.tables
    requires |s.ledger| == |registry|
    ensures Migrate(env, execute, s, registry) == (s, Ok(|registry|))
  {
    hide Accepted, ApplyFirst;
    AcceptedIffPrefix(env, s.ledger, registry);
    MigrationRuns.ApplyFirstKeeps(env, execute, s, registry, |registry|);
    assert s.ledger[|registry| - 1] == RowOf(env, registry[|registry| - 1]);
  }

  lemma TableTexts(env: Env)
    ensures StatementText(Create("CREATE TABLE a")) == "CREATE TABLE a"
    ensures StatementText(Create("CREATE TABLE a\n")) == "CREATE TABLE a"
    ensures StatementText(Create("CREATE TABLE b")) == "CREATE TABLE b"
    ensures "CREATE TABLE a" != "CREATE TABLE b"
  {
    hide Strip;
    StripOfTrimmed("CREATE TABLE a");
    StripOfTrimmed("CREATE TABLE b");
    StripOf("", "CREATE TABLE a", "\n");
    assert "" + "CREATE TABLE a" + "\n" == "CREATE TABLE a\n";
    assert "CREATE TABLE a"[13] != "CREATE TABLE b"[13];
  }

  const SEPARATOR := "\n-- migration statement --\n"

  /** One statement that holds the separator has the checksum of the two around it. */
  lemma SeparatorInStatement(env: Env)
    ensures var (one, two) := (Create("a" + SEPARATOR + "b"), Migration(1, "create", [" a", "b "]));
      && Checksum(env, one) == env.hash("a" + SEPARATOR + "b") == Checksum(env, two)
      && |one.statements| != |two.statements|
  {
    hide Strip, SEPARATOR;
    OneStatement("a" + SEPARATOR + "b");
    StripOf(" ", "a", "");
    StripOf("", "b", " ");
    assert " " + "a" + "" == " a" && "" + "b" + " " == "b ";
    TwoStatements(" a", "b ");
  }

  lemma OneStatement(text: string)
    requires IsTrimmed(text)
    ensures StatementText(Create(text)) == text
  {
    hide Strip;
    StripOfTrimmed(text);
  }

  lemma TwoStatements(a: string, b: string)
    ensures StatementText(Migration(1, "create", [a, b])) == Strip(a) + SEPARATOR + Strip(b)
  {
    hide Strip;
    var parts := Stripped([a, b]);
    assert parts[1..] == [Strip(b)];
    assert Join(parts, SEPARATOR) == parts[0] + SEPARATOR + Join(parts[1..], SEPARATOR);
  }
}
