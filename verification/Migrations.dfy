/**
 The schema migration runner: catalog migrations commit with their version row, online ones
 (CREATE or DROP INDEX CONCURRENTLY) run in autocommit, each guarded by IF [NOT] EXISTS, and record their
 version in a statement of their own. A crash of an online statement may leave its index invalid.
 */
module Migrations {
  /** `tables` is whatever the catalog migrations define; `indexes` holds the valid ones and their definitions. */
  datatype Schema<C> = Schema(tables: C, indexes: map<string, string>)

  datatype Migration<!C> =
    | Catalog(version: int, run: Schema<C> -> Schema<C>)
    | CreateIndex(version: int, name: string, definition: string)
    | DropIndex(version: int, name: string)

  predicate Online<C>(m: Migration<C>) {
    !m.Catalog?
  }

  /** What one migration does to a schema without invalid indexes. */
  function Apply<C>(m: Migration<C>, s: Schema<C>): Schema<C> {
    match m
    case Catalog(_, run) => run(s)
    case CreateIndex(_, name, definition) =>
      if name in s.indexes then s else s.(indexes := s.indexes[name := definition])
    case DropIndex(_, name) => s.(indexes := s.indexes - {name})
  }

  /** One uninterrupted run. */
  function ApplyAll<C>(ms: seq<Migration<C>>, s: Schema<C>): Schema<C> {
    if ms == [] then s else Apply(ms[|ms| - 1], ApplyAll(ms[..|ms| - 1], s))
  }

  /** `build_migrations` sorts by version; versions are distinct and positive. */
  ghost predicate InOrder<C>(ms: seq<Migration<C>>) {
    && (forall i :: 0 <= i < |ms| ==> ms[i].version > 0)
    && forall i, j :: 0 <= i < j < |ms| ==> ms[i].version < ms[j].version
  }

  /** What a crashed or unrecorded online migration may leave, of a schema that was `s` before it. */
  predicate HalfDone<C(==)>(m: Migration<C>, s: Schema<C>, now: Schema<C>, invalid: set<string>)
    requires Online(m)
  {
    || (now == s && invalid == {})
    || (now == Apply(m, s) && invalid == {})
    || (m.CreateIndex? && now == s && m.name !in s.indexes && invalid == {m.name})
    || (m.DropIndex? && now == Apply(m, s) && invalid == {m.name})
  }

  /** The budget of a process: how many statements it completes, and whether the one it dies in leaves an
      index invalid. */
  datatype Fate = Fate(statements: nat, torn: bool)

  class SchemaDb<C(==)> {
    var ready: bool
    var schema: Schema<C>
    var invalid: set<string>
    var versions: set<int>

    /** Migrations whose version has been recorded. */
    ghost var recorded: nat

    ghost function Version(ms: seq<Migration<C>>): int
      reads this
      requires recorded <= |ms|
    {
      if recorded == 0 then 0 else ms[recorded - 1].version
    }

    /** At most one version row, and the schema is that of the recorded migrations, but for the next one when
        it is online and was interrupted. */
    ghost predicate Valid(ms: seq<Migration<C>>, base: Schema<C>)
      reads this
    {
      && InOrder(ms) && recorded <= |ms|
      && versions == (if recorded == 0 then {} else {Version(ms)})
      && (Settled(ms, base)
          || (&& recorded < |ms| && Online(ms[recorded])
              && HalfDone(ms[recorded], ApplyAll(ms[..recorded], base), schema, invalid)))
    }

    ghost predicate Settled(ms: seq<Migration<C>>, base: Schema<C>)
      reads this
      requires recorded <= |ms|
    {
      schema == ApplyAll(ms[..recorded], base) && invalid == {}
    }

    constructor (base: Schema<C>)
      ensures schema == base && invalid == {} && versions == {} && recorded == 0 && !ready
    {
      ready, schema, invalid, versions, recorded := false, base, {}, {}, 0;
    }

    /** SELECT version ... LIMIT 1, or 0. */
    method ReadVersion(ghost ms: seq<Migration<C>>, ghost base: Schema<C>) returns (v: int)
      requires Valid(ms, base)
      ensures v == Version(ms)
    {
      v := 0;
      if versions != {} {
        assert Version(ms) in versions;
        v :| v in versions;
      }
    }

    /** INSERT the first time, UPDATE every row thereafter. */
    method WriteVersion(version: int, lastApplied: int)
      modifies this`versions
      ensures lastApplied == 0 ==> versions == old(versions) + {version}
      ensures lastApplied != 0 ==> versions == if old(versions) == {} then {} else {version}
    {
      if lastApplied == 0 {
        versions := versions + {version};
      } else if versions != {} {
        versions := {version};
      }
    }

    /** `cleanup_invalid_indexes`: one autocommitted drop per invalid index. */
    method CleanupInvalidIndexes(ghost ms: seq<Migration<C>>, ghost base: Schema<C>, budget: nat)
      returns (left: nat, alive: bool)
      requires Valid(ms, base)
      modifies this`invalid
      ensures Valid(ms, base) && (alive ==> invalid == {})
    {
      left, alive := budget, true;
      var names := invalid;
      while names != {} && alive
        invariant names == invalid && Valid(ms, base)
        decreases |names|, alive
      {
        if left == 0 {
          alive := false;
        } else {
          var name :| name in names;
          names := names - {name};
          invalid := invalid - {name};
          left := left - 1;
        }
      }
    }

    /** One online statement, completed, from a schema with no invalid index; running it again is harmless. */
    method RunOnline(m: Migration<C>, ghost before: Schema<C>)
      requires Online(m) && HalfDone(m, before, schema, invalid) && invalid == {}
      modifies this`schema
      ensures schema == Apply(m, before)
    {
      match m
      case CreateIndex(_, name, definition) =>
        if name !in schema.indexes && name !in invalid {
          schema := schema.(indexes := schema.indexes[name := definition]);
        }
      case DropIndex(_, name) =>
        schema := schema.(indexes := schema.indexes - {name});
      case Catalog(_, _) =>
    }

    /** The same statement, dying: nothing yet, or an index left invalid. */
    method DieOnline(m: Migration<C>, ghost before: Schema<C>, torn: bool)
      requires Online(m) && HalfDone(m, before, schema, invalid) && invalid == {}
      modifies this`schema, this`invalid
      ensures HalfDone(m, before, schema, invalid)
    {
      match m
      case CreateIndex(_, name, _) =>
        if torn && name !in schema.indexes {
          invalid := invalid + {name};
        }
      case DropIndex(_, name) =>
        if torn && name in schema.indexes {
          schema := schema.(indexes := schema.indexes - {name});
          invalid := invalid + {name};
        }
      case Catalog(_, _) =>
    }

    /** One pending online migration: cleanup before the first of a run, the statement, then its version. */
    method OnlineStep(
      m: Migration<C>, ghost ms: seq<Migration<C>>, ghost base: Schema<C>, current: int, fate: Fate, wasClean: bool)
      returns (left: nat, clean: bool, alive: bool)
      requires Valid(ms, base) && recorded < |ms| && m == ms[recorded] && Online(m) && current == Version(ms)
      requires wasClean ==> invalid == {}
      modifies this`schema, this`invalid, this`versions, this`recorded
      ensures Valid(ms, base)
      ensures if alive then recorded == old(recorded) + 1 && Settled(ms, base) && clean else recorded == old(recorded)
    {
      ghost var before := ApplyAll(ms[..recorded], base);
      left, clean, alive := fate.statements, wasClean, true;
      if !clean {
        left, alive := CleanupInvalidIndexes(ms, base, left);
        clean := alive;
      }
      if alive {
        if left == 0 {
          DieOnline(m, before, fate.torn);
          alive := false;
        } else {
          RunOnline(m, before);
          left := left - 1;
          alive := left > 0;
          if alive {
            left := left - 1;
            RecordOnline(m, ms, base, current);
          }
        }
      }
    }

    /** The version of an online migration, once its statement has completed. */
    method RecordOnline(m: Migration<C>, ghost ms: seq<Migration<C>>, ghost base: Schema<C>, current: int)
      requires Valid(ms, base) && recorded < |ms| && m == ms[recorded] && current == Version(ms) && invalid == {}
      requires schema == Apply(m, ApplyAll(ms[..recorded], base))
      modifies this`versions, this`recorded
      ensures Valid(ms, base) && recorded == old(recorded) + 1 && Settled(ms, base)
    {
      ApplyNext(ms, recorded, base);
      WriteVersion(m.version, current);
      recorded := recorded + 1;
    }

    /** One pending catalog migration: statement and version in one transaction. */
    method CatalogStep(m: Migration<C>, ghost ms: seq<Migration<C>>, ghost base: Schema<C>, current: int)
      requires Valid(ms, base) && recorded < |ms| && m == ms[recorded] && !Online(m) && current == Version(ms)
      modifies this`schema, this`versions, this`recorded
      ensures Valid(ms, base) && recorded == old(recorded) + 1 && Settled(ms, base)
    {
      ApplyNext(ms, recorded, base);
      schema := m.run(schema);
      WriteVersion(m.version, current);
      recorded := recorded + 1;
    }

    /**
     `run_migrations`, in a process that dies where its fate says. Wherever it dies the database is valid
     and no recorded migration is lost; a process that completes leaves the schema of one uninterrupted run.
     */
    method RunMigrations(ms: seq<Migration<C>>, ghost base: Schema<C>, fate: Fate) returns (done: bool)
      requires Valid(ms, base)
      modifies this
      ensures Valid(ms, base) && recorded >= old(recorded)
      ensures done ==> recorded == |ms| && schema == ApplyAll(ms, base) && invalid == {} && ready
    {
      done := false;
      if fate.statements == 0 {
        return;
      }
      var left: nat := fate.statements - 1;
      ready := true;
      var current := ReadVersion(ms, base);
      var clean := false;
      var i := 0;
      while i < |ms|
        invariant 0 <= i <= |ms| && Valid(ms, base) && recorded >= old(recorded) && current == Version(ms) && ready
        invariant i <= recorded
        invariant recorded > old(recorded) ==> recorded == i && Settled(ms, base)
        invariant clean ==> invalid == {}
      {
        if ms[i].version > current {
          assert i == recorded;
          if Online(ms[i]) {
            var alive;
            left, clean, alive := OnlineStep(ms[i], ms, base, current, Fate(left, fate.torn), clean);
            if !alive {
              return;
            }
          } else {
            if left == 0 {
              return;
            }
            CatalogStep(ms[i], ms, base, current);
            left := left - 1;
          }
          current := ms[i].version;
        }
        i := i + 1;
      }
      assert ms[..|ms|] == ms;
      done := true;
    }

    /** Any sequence of crashes and re-runs: once one process completes, everything is as if it had been the
        only one. */
    method RunAgainAndAgain(ms: seq<Migration<C>>, ghost base: Schema<C>, fates: seq<Fate>) returns (done: bool)
      requires Valid(ms, base)
      modifies this
      ensures Valid(ms, base) && recorded >= old(recorded)
      ensures done ==> schema == ApplyAll(ms, base) && invalid == {} && ready
      ensures done && ms != [] ==> versions == {ms[|ms| - 1].version}
    {
      done := false;
      var k := 0;
      while k < |fates| && !done
        invariant Valid(ms, base) && recorded >= old(recorded)
        invariant done ==> recorded == |ms| && schema == ApplyAll(ms, base) && invalid == {} && ready
        decreases |fates| - k
      {
        done := RunMigrations(ms, base, fates[k]);
        k := k + 1;
      }
    }
  }

  lemma ApplyNext<C>(ms: seq<Migration<C>>, n: nat, s: Schema<C>)
    requires n < |ms|
    ensures ApplyAll(ms[..n + 1], s) == Apply(ms[n], ApplyAll(ms[..n], s))
  {
    assert ms[..n + 1][..n] == ms[..n];
  }

  // ---- the migrations that ship ---------------------------------------------------------------------------

  const SCHEMA_VERSION := 40

  /** Versions 22 to 37 drop and create indexes online; every other version is a catalog migration. */
  function Shipped<C>(
    catalog: int -> Schema<C> -> Schema<C>, definition: int -> string, version: int): (m: Migration<C>)
    ensures m.version == version
  {
    match version
    case 22 => DropIndex(22, "idx_workflow_status_forked_from")
    case 23 => CreateIndex(23, "idx_workflow_status_forked_from", definition(23))
    case 24 => DropIndex(24, "idx_workflow_status_parent_workflow_id")
    case 25 => CreateIndex(25, "idx_workflow_status_parent_workflow_id", definition(25))
    case 26 => DropIndex(26, "workflow_status_executor_id_index")
    case 27 => CreateIndex(27, "uq_workflow_status_dedup_id", definition(27))
    case 29 => CreateIndex(29, "idx_workflow_status_pending", definition(29))
    case 30 => CreateIndex(30, "idx_workflow_status_failed", definition(30))
    case 31 => DropIndex(31, "workflow_status_status_index")
    case 32 => CreateIndex(32, "idx_workflow_status_in_flight", definition(32))
    case 34 => CreateIndex(34, "idx_workflow_status_rate_limited", definition(34))
    case 35 => DropIndex(35, "idx_workflow_status_queue_status_started")
    case 37 => CreateIndex(37, "idx_workflow_status_started_at", definition(37))
    case _ => Catalog(version, catalog(version))
  }

  function Build<C>(catalog: int -> Schema<C> -> Schema<C>, definition: int -> string): seq<Migration<C>> {
    seq(SCHEMA_VERSION, i => Shipped(catalog, definition, i + 1))
  }

  /** From an empty database, through any crashes: version 40 and the uninterrupted schema. */
  method MigrateFromNothing<C(==)>(
    catalog: int -> Schema<C> -> Schema<C>, definition: int -> string, base: Schema<C>, fates: seq<Fate>)
    returns (db: SchemaDb<C>, done: bool)
    ensures fresh(db) && (done ==> db.versions == {SCHEMA_VERSION} && db.invalid == {})
    ensures done ==> db.schema == ApplyAll(Build(catalog, definition), base)
  {
    var ms := Build(catalog, definition);
    db := new SchemaDb(base);
    done := db.RunAgainAndAgain(ms, base, fates);
  }
}
