/**
  The versioned open (internal/store/sqlite/version.go): a decision over what a read-only
  probe finds, then one transaction.  Starts may crash or fail at any point.
 */
module StoreVersion {
  import opened Base

  type Record = map<string, Bytes>

  /** What the database holds besides its version: whether there is an inbox table, its
      columns and its rows. */
  datatype Content = NoInbox | HasInbox(columns: seq<string>, rows: seq<Record>)

  datatype Disk = Absent | File(version: int, content: Content)

  const WANTED: set<string> := {"id", "recipient", "envelope", "expires_at"}

  const SCHEMA_COLUMNS: seq<string> := ["id", "recipient", "envelope", "expires_at"]

  function RowsOf(c: Content): seq<Record> {
    if c.NoInbox? then [] else c.rows
  }

  function Rows(d: Disk): seq<Record> {
    if d.Absent? then [] else RowsOf(d.content)
  }

  // ---------------------------------------------------------------- the adoption test

  ghost predicate NoDuplicates(columns: seq<string>) {
    forall i, j :: 0 <= i < j < |columns| ==> columns[i] != columns[j]
  }

  predicate SchemaMatches(columns: seq<string>) {
    (forall c :: c in columns ==> c in WANTED) && |columns| == 4
  }

  /** inboxSchemaMatches: an unexpected column refuses at once, a missing one at the end. */
  method InboxSchemaMatches(columns: seq<string>) returns (matches: bool)
    ensures matches <==> SchemaMatches(columns)
  {
    var seen := 0;
    for i := 0 to |columns|
      invariant seen == i
      invariant forall j :: 0 <= j < i ==> columns[j] in WANTED
    {
      if columns[i] !in WANTED {
        return false;
      }
      seen := seen + 1;
    }
    return seen == |WANTED|;
  }

  /** Column names are unique in a table, so the test accepts exactly today's columns. */
  lemma SchemaMatchesExactly(columns: seq<string>)
    requires NoDuplicates(columns)
    ensures SchemaMatches(columns) <==> (set c | c in columns) == WANTED
  {
    SetOfDistinct(columns);
    if SchemaMatches(columns) {
      SubsetOfSameSize((set c | c in columns), WANTED);
    }
  }

  lemma {:induction false} SetOfDistinct(columns: seq<string>)
    requires NoDuplicates(columns)
    ensures |set c | c in columns| == |columns|
  {
    if columns != [] {
      var init, last := columns[..|columns| - 1], columns[|columns| - 1];
      SetOfDistinct(init);
      assert columns == init + [last];
      assert (set c | c in columns) == (set c | c in init) + {last};
    }
  }

  lemma SubsetOfSameSize(a: set<string>, b: set<string>)
    requires a <= b && |a| == |b|
    ensures a == b
  {
    assert |b - a| == |b| - |a|;
    assert b == a + (b - a);
  }

  // ---------------------------------------------------------------- the decision

  /** One forward step; None when applying it fails. */
  datatype Migration = Migration(from: int, apply: Content -> Option<Content>)

  datatype Options = Options(resetRequested: bool, resetDeclared: bool) {
    predicate Resets() { resetRequested && resetDeclared }
  }

  datatype Error =
    | ResetNotDeclared
    | TooNew(found: int, supported: int)
    | Unmigratable(found: int, supported: int, resetAvailable: bool)
    | Failed

  datatype Path = Missing(at: int) | Steps(steps: seq<Migration>)

  function FindStep(chain: seq<Migration>, v: int): (r: Option<Migration>)
    ensures r.Some? ==> r.value in chain && r.value.from == v
    ensures r.None? ==> forall m :: m in chain ==> m.from != v
  {
    if chain == [] then None
    else if chain[0].from == v then Some(chain[0])
    else FindStep(chain[1..], v)
  }

  function FindPath(chain: seq<Migration>, from: int, target: int): Path
    decreases target - from
  {
    if from >= target then Steps([])
    else match FindStep(chain, from)
      case None => Missing(from)
      case Some(m) =>
        match FindPath(chain, from + 1, target)
        case Missing(v) => Missing(v)
        case Steps(rest) => Steps([m] + rest)
  }

  datatype Plan = Refuse(error: Error) | Create | Adopt | Current | Reset | Migrate(steps: seq<Migration>)

  /** openStore's branches, in order. */
  function Decide(d: Disk, opts: Options, chain: seq<Migration>, target: int): Plan {
    if opts.resetRequested && !opts.resetDeclared then Refuse(ResetNotDeclared)
    else if d.File? && d.version > target then Refuse(TooNew(d.version, target))
    else if d.File? && opts.Resets() then Reset
    else if d.Absent? || (d.version == 0 && d.content.NoInbox?) then Create
    else if d.version == 0 && SchemaMatches(d.content.columns) then Adopt
    else if d.version == 0 then Refuse(Unmigratable(0, target, opts.resetDeclared))
    else if d.version == target then Current
    else match FindPath(chain, d.version, target)
      case Missing(v) => Refuse(Unmigratable(v, target, opts.resetDeclared))
      case Steps(steps) => Migrate(steps)
  }

  /** The loops that build the chain: a missing step is named before anything is written. */
  method BuildPath(chain: seq<Migration>, from: int, target: int) returns (p: Path)
    requires from <= target
    ensures p == FindPath(chain, from, target)
  {
    var steps: seq<Migration> := [];
    var v := from;
    while v < target
      invariant from <= v <= target
      invariant FindPath(chain, from, target) ==
                match FindPath(chain, v, target)
                  { case Missing(w) => Missing(w) case Steps(rest) => Steps(steps + rest) }
    {
      var i := 0;
      while i < |chain| && chain[i].from != v
        invariant 0 <= i <= |chain|
        invariant FindStep(chain, v) == FindStep(chain[i..], v)
      {
        i := i + 1;
      }
      if i == |chain| {
        return Missing(v);
      }
      AppendStep(steps, chain[i], FindPath(chain, v + 1, target));
      steps := steps + [chain[i]];
      v := v + 1;
    }
    assert steps + [] == steps;
    return Steps(steps);
  }

  lemma AppendStep(steps: seq<Migration>, m: Migration, rest: Path)
    ensures rest.Steps? ==> steps + ([m] + rest.steps) == steps + [m] + rest.steps
  {
  }

  /** A found path has exactly one step for every version from `from` to the target, in
      order; a missing one is the first version without a step. */
  lemma {:induction false} PathShape(chain: seq<Migration>, from: int, target: int)
    requires from <= target
    ensures var p := FindPath(chain, from, target);
            match p {
              case Steps(steps) =>
                |steps| == target - from && forall i :: 0 <= i < |steps| ==> FindStep(chain, from + i) == Some(steps[i])
              case Missing(v) =>
                from <= v < target && FindStep(chain, v).None? && forall u :: from <= u < v ==> FindStep(chain, u).Some?
            }
    decreases target - from
  {
    if from < target && FindStep(chain, from).Some? {
      PathShape(chain, from + 1, target);
      var p := FindPath(chain, from + 1, target);
      if p.Steps? {
        var steps := FindPath(chain, from, target).steps;
        assert forall i :: 1 <= i < |steps| ==>
            steps[i] == p.steps[i - 1] && FindStep(chain, from + 1 + (i - 1)) == Some(p.steps[i - 1]);
      }
    }
  }

  // ---------------------------------------------------------------- transactions

  datatype Op = DropInbox | Schema | Apply(m: Migration) | Stamp(version: int)

  /** CREATE TABLE IF NOT EXISTS, then the indexes, which need their columns. */
  function ApplySchema(c: Content): Option<Content> {
    if c.NoInbox? then Some(HasInbox(SCHEMA_COLUMNS, []))
    else if "recipient" in c.columns && "expires_at" in c.columns then Some(c)
    else None
  }

  function Exec(f: Disk, op: Op): (r: Option<Disk>)
    requires f.File?
    ensures r.Some? ==> r.value.File?
  {
    match op
    case DropInbox => Some(File(f.version, NoInbox))
    case Schema => (match ApplySchema(f.content) case None => None case Some(c) => Some(File(f.version, c)))
    case Apply(m) => (match m.apply(f.content) case None => None case Some(c) => Some(File(f.version, c)))
    case Stamp(v) => Some(File(v, f.content))
  }

  function ExecAll(f: Disk, ops: seq<Op>): (r: Option<Disk>)
    requires f.File?
    ensures r.Some? ==> r.value.File?
    decreases |ops|
  {
    if ops == [] then Some(f)
    else match Exec(f, ops[0])
      case None => None
      case Some(g) => ExecAll(g, ops[1..])
  }

  function ApplyOps(steps: seq<Migration>): seq<Op> {
    if steps == [] then [] else [Apply(steps[0])] + ApplyOps(steps[1..])
  }

  function OpsOf(plan: Plan, target: int): seq<Op> {
    match plan
    case Refuse(_) => []
    case Create => [Schema, Stamp(target)]
    case Adopt => [Stamp(target)]
    case Current => [Schema]
    case Reset => [DropInbox, Schema, Stamp(target)]
    case Migrate(steps) => ApplyOps(steps) + [Stamp(target)]
  }

  /** Opening read-write creates a missing file, empty. */
  function OpenRW(d: Disk): (f: Disk)
    ensures f.File?
  {
    if d.Absent? then File(0, NoInbox) else d
  }

  /** Where a start is cut off: before the file is opened, after some operations of the
      transaction but before its commit, or after the commit. */
  datatype Fault = NoFault | BeforeOpen | BeforeCommit(done: nat) | AfterCommit

  datatype Outcome = Opened(version: int, wasReset: bool) | Refused(error: Error) | CutOff

  datatype Start = Start(opts: Options, chain: seq<Migration>, target: int, fault: Fault)

  /** One start: the disk it leaves and what it reports.  Everything but the schema apply of
      a store already at its target runs in one transaction. */
  function Attempt(d: Disk, st: Start): (Disk, Outcome) {
    var plan := Decide(d, st.opts, st.chain, st.target);
    if plan.Refuse? then (d, Refused(plan.error))
    else if st.fault.BeforeOpen? then (d, CutOff)
    else
      var f := OpenRW(d);
      if st.fault.BeforeCommit? && !(plan.Current? && st.fault.done > 0) then (f, CutOff)
      else match ExecAll(f, OpsOf(plan, st.target))
        case None => (f, Refused(Failed))
        case Some(g) => (g, if st.fault.NoFault? then Opened(st.target, plan.Reset?) else CutOff)
  }

  // ---------------------------------------------------------------- crash safety

  predicate PreCommit(f: Fault) {
    f.BeforeOpen? || f.BeforeCommit?
  }

  /** An existing store is exactly the old store after any start cut off before its commit;
      only a store at its target that lacks its table can have gained it, empty. */
  lemma CutOffKeepsStore(d: Disk, st: Start)
    requires d.File? && PreCommit(st.fault)
    ensures Attempt(d, st).0 == d
            || (d.version == st.target && d.content.NoInbox?
              && Attempt(d, st).0 == File(d.version, HasInbox(SCHEMA_COLUMNS, [])))
  {
    ExecOne(d, Schema);
  }

  function Attempts(d: Disk, st: Start, faults: seq<Fault>): Disk
    decreases |faults|
  {
    if faults == [] then d
    else Attempts(Attempt(d, st.(fault := faults[0])).0, st, faults[1..])
  }

  /** Opening a store of which nothing exists yet, or of which an empty file does. */
  lemma FreshOpen(d: Disk, st: Start)
    requires st.target >= 0 && st.fault.NoFault? && (d == Absent || d == File(0, NoInbox))
    requires !(st.opts.resetRequested && !st.opts.resetDeclared)
    ensures Attempt(d, st) == (File(st.target, HasInbox(SCHEMA_COLUMNS, [])),
            Opened(st.target, d.File? && st.opts.Resets()))
  {
    ExecTwo(File(0, NoInbox), Schema, Stamp(st.target));
    ResetWipes(File(0, NoInbox), st.target);
  }

  lemma ExecOne(f: Disk, op: Op)
    requires f.File?
    ensures ExecAll(f, [op]) == Exec(f, op)
  {
    assert [op][1..] == [];
  }

  lemma ExecTwo(f: Disk, a: Op, b: Op)
    requires f.File? && Exec(f, a).Some?
    ensures ExecAll(f, [a, b]) == Exec(Exec(f, a).value, b)
  {
    assert [a, b][1..] == [b];
    ExecOne(Exec(f, a).value, b);
  }

  lemma ResetWipes(d: Disk, target: int)
    requires d.File?
    ensures ExecAll(d, OpsOf(Reset, target)) == Some(File(target, HasInbox(SCHEMA_COLUMNS, [])))
  {
    var ops := OpsOf(Reset, target);
    assert ops[1..] == [Schema, Stamp(target)];
    ExecTwo(File(d.version, NoInbox), Schema, Stamp(target));
  }

  /** One start cut off before its commit does not change what the next one makes. */
  lemma CrashOnce(d: Disk, st: Start, fault: Fault)
    requires st.target >= 0 && st.fault.NoFault? && PreCommit(fault) && Attempt(d, st).1.Opened?
    ensures var d' := Attempt(d, st.(fault := fault)).0;
            Attempt(d', st).0 == Attempt(d, st).0 && Attempt(d', st).1.Opened?
  {
    if d.Absent? {
      FreshOpen(d, st);
      FreshOpen(File(0, NoInbox), st);
    } else {
      CutOffKeepsStore(d, st.(fault := fault));
      if Attempt(d, st.(fault := fault)).0 != d {
        CurrentTwice(d, st);
      }
    }
  }

  lemma CurrentTwice(d: Disk, st: Start)
    requires d.File? && d.version == st.target && d.content.NoInbox? && Attempt(d, st).1.Opened? && st.fault.NoFault?
    ensures var d' := File(d.version, HasInbox(SCHEMA_COLUMNS, []));
            Attempt(d', st).0 == Attempt(d, st).0 && Attempt(d', st).1.Opened?
  {
    var d' := File(d.version, HasInbox(SCHEMA_COLUMNS, []));
    ExecOne(d, Schema);
    ExecOne(d', Schema);
    ResetWipes(d, st.target);
    ResetWipes(d', st.target);
    ExecTwo(d, Schema, Stamp(st.target));
    ExecOne(d', Stamp(st.target));
  }

  /** A start cut off after its commit has left what it would have left uninterrupted. */
  lemma CutOffAfterCommit(d: Disk, st: Start)
    requires st.fault.NoFault?
    ensures Attempt(d, st.(fault := AfterCommit)).0 == Attempt(d, st).0
    ensures Attempt(d, st).1.Opened? <==> Attempt(d, st.(fault := AfterCommit)).1 == CutOff
  {
  }

  /** Any number of starts cut off before their commit, then one that is not: the store is
      what the last start alone would have made of it. */
  lemma {:induction false} CrashSafe(d: Disk, st: Start, faults: seq<Fault>)
    requires st.target >= 0 && st.fault.NoFault?
    requires forall f :: f in faults ==> PreCommit(f)
    requires Attempt(d, st).1.Opened?
    ensures Attempt(Attempts(d, st, faults), st).0 == Attempt(d, st).0
    ensures Attempt(Attempts(d, st, faults), st).1.Opened?
    decreases |faults|
  {
    if faults != [] {
      assert faults[0] in faults;
      CrashOnce(d, st, faults[0]);
      CrashSafe(Attempt(d, st.(fault := faults[0])).0, st, faults[1..]);
    }
  }

  // ---------------------------------------------------------------- what a successful open leaves

  /** The chain's steps one after another. */
  function ApplyAll(c: Content, steps: seq<Migration>): Option<Content>
    decreases |steps|
  {
    if steps == [] then Some(c)
    else match steps[0].apply(c)
      case None => None
      case Some(c') => ApplyAll(c', steps[1..])
  }

  lemma {:induction false} ExecApplies(f: Disk, steps: seq<Migration>, target: int)
    requires f.File?
    ensures ExecAll(f, ApplyOps(steps) + [Stamp(target)]) ==
            match ApplyAll(f.content, steps) { case None => None case Some(c) => Some(File(target, c)) }
    decreases |steps|
  {
    var ops := ApplyOps(steps) + [Stamp(target)];
    if steps == [] {
      assert ops == [Stamp(target)] && ops[1..] == [];
    } else {
      assert ops[0] == Apply(steps[0]) && ops[1..] == ApplyOps(steps[1..]) + [Stamp(target)];
      match steps[0].apply(f.content)
      case None =>
      case Some(c) => ExecApplies(File(f.version, c), steps[1..], target);
    }
  }

  /** A migration that opens leaves the composition of one step per version, stamped with
      the target; one that fails leaves the old store. */
  lemma MigrationComposes(d: Disk, st: Start)
    requires st.fault.NoFault? && Decide(d, st.opts, st.chain, st.target).Migrate?
    ensures d.File? && d.version <= st.target
    ensures var steps := Decide(d, st.opts, st.chain, st.target).steps;
            && |steps| == st.target - d.version
            && (forall i :: 0 <= i < |steps| ==> FindStep(st.chain, d.version + i) == Some(steps[i]))
            && Attempt(d, st) == match ApplyAll(d.content, steps) {
                 case None => (d, Refused(Failed))
                 case Some(c) => (File(st.target, c), Opened(st.target, false))
               }
  {
    var steps := Decide(d, st.opts, st.chain, st.target).steps;
    PathShape(st.chain, d.version, st.target);
    ExecApplies(d, steps, st.target);
  }

  /** A missing step: the open refuses naming the first one, and writes nothing. */
  lemma MissingStepRefuses(d: Disk, st: Start)
    requires d.File? && d.version != 0 && d.version < st.target && !st.opts.resetRequested
    ensures (exists v :: d.version <= v < st.target && FindStep(st.chain, v).None?)
            <==> Decide(d, st.opts, st.chain, st.target).Refuse?
    ensures Decide(d, st.opts, st.chain, st.target).Refuse? ==>
              exists v :: d.version <= v < st.target && FindStep(st.chain, v).None?
                && (forall u :: d.version <= u < v ==> FindStep(st.chain, u).Some?)
                && Attempt(d, st) == (d, Refused(Unmigratable(v, st.target, st.opts.resetDeclared)))
  {
    PathShape(st.chain, d.version, st.target);
    var p := FindPath(st.chain, d.version, st.target);
    if p.Steps? {
      forall v | d.version <= v < st.target ensures FindStep(st.chain, v).Some? {
        assert FindStep(st.chain, d.version + (v - d.version)) == Some(p.steps[v - d.version]);
      }
    }
  }

  lemma {:induction false} StampsLast(f: Disk, ops: seq<Op>, target: int)
    requires f.File?
    ensures var r := ExecAll(f, ops + [Stamp(target)]); r.Some? ==> r.value.version == target
    decreases |ops|
  {
    var all := ops + [Stamp(target)];
    if ops == [] {
      assert all == [Stamp(target)] && all[1..] == [];
    } else {
      assert all[0] == ops[0] && all[1..] == ops[1..] + [Stamp(target)];
      if Exec(f, ops[0]).Some? {
        StampsLast(Exec(f, ops[0]).value, ops[1..], target);
      }
    }
  }

  /** Every successful open ends at its target version; every refusal leaves an existing
      store exactly as it was. */
  lemma OpenEndsAtTarget(d: Disk, st: Start)
    ensures Attempt(d, st).1.Opened? ==>
              Attempt(d, st).0.File? && Attempt(d, st).0.version == st.target == Attempt(d, st).1.version
    ensures Attempt(d, st).1.Refused? && d.File? ==> Attempt(d, st).0 == d
    ensures Attempt(d, st).1.Refused? && !Attempt(d, st).1.error.Failed? ==> Attempt(d, st).0 == d
  {
    var plan, f := Decide(d, st.opts, st.chain, st.target), OpenRW(d);
    match plan
    case Refuse(_) =>
    case Create => assert [Schema] + [Stamp(st.target)] == OpsOf(plan, st.target); StampsLast(f, [Schema], st.target);
    case Adopt => assert [] + [Stamp(st.target)] == OpsOf(plan, st.target); StampsLast(f, [], st.target);
    case Current => ExecOne(f, Schema);
    case Reset =>
      assert [DropInbox, Schema] + [Stamp(st.target)] == OpsOf(plan, st.target);
      StampsLast(f, [DropInbox, Schema], st.target);
    case Migrate(steps) => StampsLast(f, ApplyOps(steps), st.target);
  }

  // ---------------------------------------------------------------- what each store opens as

  /** The operator's flag on a release that does not declare a reset: refused, whatever is there. */
  lemma UndeclaredResetRefuses(d: Disk, st: Start)
    requires st.opts.resetRequested && !st.opts.resetDeclared
    ensures Attempt(d, st) == (d, Refused(ResetNotDeclared))
  {
  }

  /** An unversioned store with a table, no reset asked for: adopted as it is exactly when the
      table's columns are today's four, and refused untouched in every other case. */
  lemma UnversionedExactly(columns: seq<string>, rows: seq<Record>, st: Start)
    requires NoDuplicates(columns) && st.target >= 0 && !st.opts.resetRequested && st.fault.NoFault?
    ensures var d := File(0, HasInbox(columns, rows));
            Attempt(d, st) ==
            if (set c | c in columns) == {"id", "recipient", "envelope", "expires_at"}
            then (File(st.target, HasInbox(columns, rows)), Opened(st.target, false))
            else (d, Refused(Unmigratable(0, st.target, st.opts.resetDeclared)))
  {
    var d := File(0, HasInbox(columns, rows));
    SchemaMatchesExactly(columns);
    ExecOne(d, Stamp(st.target));
  }

  /** A newer store is refused untouched, a declared and requested reset included; and nothing else
      is refused as too new. */
  lemma TooNewExactly(d: Disk, st: Start)
    ensures Attempt(d, st).1 == Refused(TooNew(if d.File? then d.version else 0, st.target))
            <==> d.File? && d.version > st.target && !(st.opts.resetRequested && !st.opts.resetDeclared)
    ensures Attempt(d, st).1.Refused? && Attempt(d, st).1.error.TooNew? ==> Attempt(d, st).0 == d
  {
  }

  /** A start that is not cut off reports a reset exactly when it was requested and declared on an
      existing store no newer than its target; the store is then new and empty. */
  lemma ResetExactly(d: Disk, st: Start)
    requires st.fault.NoFault?
    ensures Attempt(d, st).1 == Opened(st.target, true)
            <==> d.File? && st.opts.resetRequested && st.opts.resetDeclared && d.version <= st.target
    ensures Attempt(d, st).1 == Opened(st.target, true) ==>
              Attempt(d, st).0 == File(st.target, HasInbox(["id", "recipient", "envelope", "expires_at"], []))
  {
    if d.File? {
      ResetWipes(d, st.target);
    }
  }

  /** A store at its target opens as it is if it has the columns its indexes need, gains its table
      if it has none, and fails untouched otherwise. */
  lemma CurrentExactly(d: Disk, st: Start)
    requires d.File? && d.version == st.target != 0 && !st.opts.resetRequested && st.fault.NoFault?
    ensures Attempt(d, st) ==
            match d.content {
              case NoInbox => (File(st.target, HasInbox(["id", "recipient", "envelope", "expires_at"], [])),
                               Opened(st.target, false))
              case HasInbox(columns, _) =>
                if "recipient" in columns && "expires_at" in columns then (d, Opened(st.target, false))
                else (d, Refused(Failed))
            }
  {
    ExecOne(d, Schema);
  }

  // ---------------------------------------------------------------- data safety

  /** Migrations may reshape the store; these keep its rows. */
  ghost predicate KeepsRows(chain: seq<Migration>) {
    forall m, c :: m in chain && m.apply(c).Some? ==> RowsOf(m.apply(c).value) == RowsOf(c)
  }

  lemma {:induction false} ApplyKeepsRows(chain: seq<Migration>, c: Content, steps: seq<Migration>)
    requires KeepsRows(chain) && forall m :: m in steps ==> m in chain
    ensures ApplyAll(c, steps).Some? ==> RowsOf(ApplyAll(c, steps).value) == RowsOf(c)
    decreases |steps|
  {
    if steps != [] && steps[0].apply(c).Some? {
      assert steps[0] in steps;
      ApplyKeepsRows(chain, steps[0].apply(c).value, steps[1..]);
    }
  }

  lemma {:induction false} PathInChain(chain: seq<Migration>, from: int, target: int)
    ensures var p := FindPath(chain, from, target); p.Steps? ==> forall m :: m in p.steps ==> m in chain
    decreases target - from
  {
    if from < target {
      PathInChain(chain, from + 1, target);
    }
  }

  /** The start commits a reset. */
  predicate Wipes(d: Disk, st: Start) {
    d.File? && st.opts.Resets() && d.version <= st.target && !PreCommit(st.fault)
  }

  /** A start changes the rows exactly when it commits a requested and declared reset, on a
      store no newer than its target, that had rows; and then none are left. */
  lemma RowsChangeExactly(d: Disk, st: Start)
    requires KeepsRows(st.chain)
    ensures Rows(Attempt(d, st).0) != Rows(d) <==> Wipes(d, st) && Rows(d) != []
    ensures Wipes(d, st) ==> Rows(Attempt(d, st).0) == []
  {
    var plan, f := Decide(d, st.opts, st.chain, st.target), OpenRW(d);
    match plan
    case Refuse(_) =>
    case Create => ExecTwo(f, Schema, Stamp(st.target));
    case Adopt => ExecOne(f, Stamp(st.target));
    case Current => ExecOne(f, Schema);
    case Reset => ResetWipes(d, st.target);
    case Migrate(steps) =>
      ExecApplies(f, steps, st.target);
      PathInChain(st.chain, d.version, st.target);
      ApplyKeepsRows(st.chain, d.content, steps);
  }

  function History(d: Disk, starts: seq<Start>): Disk {
    if starts == [] then d else Attempt(History(d, starts[..|starts| - 1]), starts[|starts| - 1]).0
  }

  /** Start number i of the history commits a reset. */
  predicate WipedAt(d: Disk, starts: seq<Start>, i: nat)
    requires i < |starts|
  {
    Wipes(History(d, starts[..i]), starts[i])
  }

  lemma WipedInPrefix(d: Disk, starts: seq<Start>, n: nat, i: nat)
    requires i < n <= |starts|
    ensures WipedAt(d, starts[..n], i) <==> WipedAt(d, starts, i)
  {
    assert starts[..n][..i] == starts[..i];
  }

  /** Over any starts of any binaries with any options, cut off anywhere, the rows survive
      unless some start committed a requested and declared reset of a store no newer than
      its target. */
  lemma {:induction false} RowsSurvive(d: Disk, starts: seq<Start>)
    requires forall st :: st in starts ==> KeepsRows(st.chain)
    ensures Rows(History(d, starts)) != Rows(d) ==>
              exists i :: 0 <= i < |starts| && WipedAt(d, starts, i)
  {
    if starts != [] {
      var n := |starts| - 1;
      assert starts[n] in starts;
      RowsSurvive(d, starts[..n]);
      RowsChangeExactly(History(d, starts[..n]), starts[n]);
      if Rows(History(d, starts[..n])) != Rows(d) {
        var i :| 0 <= i < n && WipedAt(d, starts[..n], i);
        WipedInPrefix(d, starts, n, i);
      } else if Wipes(History(d, starts[..n]), starts[n]) {
        assert WipedAt(d, starts, n);
      }
    }
  }

  // ---------------------------------------------------------------- the store file

  /** The file on disk, with the open transaction's uncommitted changes beside it. */
  class StoreFile {
    var disk: Disk
    var pending: Option<Disk>

    constructor (d: Disk)
      ensures disk == d && pending == None
    {
      disk, pending := d, None;
    }

    /** openCurrent's schema apply: no transaction of its own. */
    method ApplyCurrent(fault: Fault) returns (applied: bool)
      requires disk.File? && !fault.BeforeOpen?
      modifies this`disk
      ensures applied <==> !(fault.BeforeCommit? && fault.done == 0) && ExecAll(old(disk), [Schema]).Some?
      ensures disk == if applied then ExecAll(old(disk), [Schema]).value else old(disk)
    {
      ExecOne(disk, Schema);
      if fault.BeforeCommit? && fault.done == 0 {
        return false;
      }
      var next := Exec(disk, Schema);
      applied := next.Some?;
      if applied {
        disk := next.value;
      }
    }

    /** withTx: all operations and the commit, or the old store. */
    method WithTx(ops: seq<Op>, fault: Fault) returns (committed: bool)
      requires disk.File? && pending == None && !fault.BeforeOpen?
      modifies this
      ensures pending == None
      ensures committed <==> !fault.BeforeCommit? && ExecAll(old(disk), ops).Some?
      ensures disk == if committed then ExecAll(old(disk), ops).value else old(disk)
    {
      pending := Some(disk);
      var i := 0;
      assert ops[0..] == ops;
      while i < |ops|
        invariant 0 <= i <= |ops| && disk == old(disk)
        invariant pending.Some? && pending.value.File?
        invariant ExecAll(pending.value, ops[i..]) == ExecAll(disk, ops)
      {
        if fault.BeforeCommit? && fault.done == i {
          pending := None;
          return false;
        }
        assert ops[i..][1..] == ops[i + 1..];
        var next := Exec(pending.value, ops[i]);
        if next.None? {
          pending := None;
          return false;
        }
        pending := next;
        i := i + 1;
      }
      if fault.BeforeCommit? {
        pending := None;
        return false;
      }
      disk, pending := pending.value, None;
      return true;
    }

    /** openStore */
    method Open(st: Start) returns (r: Outcome)
      requires pending == None
      modifies this
      ensures pending == None
      ensures (disk, r) == Attempt(old(disk), st)
    {
      var plan := Decide(disk, st.opts, st.chain, st.target);
      if plan.Refuse? {
        return Refused(plan.error);
      }
      if st.fault.BeforeOpen? {
        return CutOff;
      }
      disk := OpenRW(disk);
      var committed;
      if plan.Current? {
        committed := ApplyCurrent(st.fault);
      } else {
        committed := WithTx(OpsOf(plan, st.target), st.fault);
      }
      if committed {
        return if st.fault.NoFault? then Opened(st.target, plan.Reset?) else CutOff;
      }
      return if st.fault.BeforeCommit? && !(plan.Current? && st.fault.done > 0) then CutOff else Refused(Failed);
    }
  }
}
