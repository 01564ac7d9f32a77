/** The experiment runner's bookkeeping: one open-experiment slot, the
    snapshot list with its cap, the metric map, the `override or default`
    settings and the close-out of an experiment. The database is a ghost log
    of the writes the runner asks for; the pipeline's current state, the
    clock and the fresh id are parameters. */
module ExperimentRunner {
  import opened Wrappers
  import opened Values

  /** The `experiment_runner` settings the runner falls back to. */
  datatype Settings = Settings(
    snapshotInterval: Option<real>,
    maxSnapshots: int,
    snapshotOnMetrics: bool,
    collectionName: string,
    compressorType: Option<string>)

  /** Their declared defaults. */
  const DefaultSettings := Settings(Some(5.0), 1000, true, "experiments", None)

  /** The constructor arguments that override them; None when not given. */
  datatype Overrides = Overrides(
    snapshotInterval: Option<real>,
    maxSnapshots: Option<int>,
    snapshotOnMetrics: Option<bool>,
    collectionName: Option<string>,
    snapshotCompressor: Option<string>)

  /** An experiment record. `attributes` holds what `update_current_experiment`
      sets; `snapshots` holds the captured pipeline states. */
  datatype ExperimentRecord = ExperimentRecord(
    id: string,
    name: string,
    startTime: int,
    endTime: Option<int>,
    pipelineType: string,
    pipelineConfig: Datum,
    metrics: map<string, Datum>,
    snapshots: seq<Datum>,
    status: string,
    initialInput: Datum,
    attributes: map<string, Datum>)

  /** One write the runner sends to its database client. */
  datatype Write =
    | Saved(collection: string, record: ExperimentRecord)
    | SnapshotsUpdated(collection: string, id: string, snapshots: seq<Datum>)
    | MetricsUpdated(collection: string, id: string, metrics: map<string, Datum>)
    | RecordUpdated(collection: string, id: string, record: ExperimentRecord)

  const NotStarted := "No experiment in progress"
  const AlreadyStarted := "Experiment already in progress"

  /** The record `start` creates. */
  function FreshRecord(id: string, name: string, now: int, pipelineType: string, config: Datum, input: Datum)
    : (r: ExperimentRecord)
    ensures r.status == "running" && r.endTime == None
    ensures r.metrics == map[] && r.snapshots == [] && r.attributes == map[]
    ensures r.id == id && r.name == name && r.startTime == now && r.initialInput == input
  {
    ExperimentRecord(id, name, now, None, pipelineType, config, map[], [], "running", input, map[])
  }

  /** The record after a snapshot of `state` is offered to it: unchanged at
      or above the cap, otherwise `state` put after the earlier snapshots. */
  function WithSnapshot(rec: ExperimentRecord, cap: int, state: Datum): ExperimentRecord {
    if |rec.snapshots| >= cap then rec else rec.(snapshots := rec.snapshots + [state])
  }

  /** A snapshot never pushes the list past the cap, keeps the earlier
      snapshots, adds at most one and changes nothing else. */
  lemma SnapshotCapped(rec: ExperimentRecord, cap: int, state: Datum)
    ensures var r := WithSnapshot(rec, cap, state);
      && (|rec.snapshots| <= cap ==> |r.snapshots| <= cap)
      && r.snapshots[..|rec.snapshots|] == rec.snapshots
      && (|rec.snapshots| < cap <==> r.snapshots == rec.snapshots + [state])
      && (|rec.snapshots| >= cap <==> r == rec)
      && r == rec.(snapshots := r.snapshots)
  {
  }

  /** The database write a snapshot offer makes: none at or above the cap. */
  function SnapshotWrites(collection: string, rec: ExperimentRecord, cap: int, state: Datum): seq<Write> {
    if |rec.snapshots| >= cap then [] else [SnapshotsUpdated(collection, rec.id, rec.snapshots + [state])]
  }

  /** Offering snapshots one after another stops adding at the cap, however
      many are offered. */
  function Offer(rec: ExperimentRecord, cap: int, states: seq<Datum>): ExperimentRecord
    decreases |states|
  {
    if states == [] then rec else Offer(WithSnapshot(rec, cap, states[0]), cap, states[1..])
  }

  lemma {:induction false} OfferBounded(rec: ExperimentRecord, cap: int, states: seq<Datum>)
    requires |rec.snapshots| <= cap
    ensures |Offer(rec, cap, states).snapshots| <= cap
    ensures |Offer(rec, cap, states).snapshots| == |rec.snapshots| + |states| || |Offer(rec, cap, states).snapshots| == cap
    ensures Offer(rec, cap, states).snapshots[..|rec.snapshots|] == rec.snapshots
    decreases |states|
  {
    if states != [] {
      var next := WithSnapshot(rec, cap, states[0]);
      SnapshotCapped(rec, cap, states[0]);
      OfferBounded(next, cap, states[1..]);
      assert next.snapshots[..|rec.snapshots|] == rec.snapshots;
    }
  }

  /** `setattr(record, key, value)` for each item in turn. */
  function SetAll(attrs: map<string, Datum>, items: seq<(string, Datum)>): map<string, Datum>
    decreases |items|
  {
    if items == [] then attrs
    else
      var last := items[|items| - 1];
      SetAll(attrs, items[..|items| - 1])[last.0 := last.1]
  }

  /** An attribute the update does not name keeps its value, or stays absent. */
  lemma {:induction false} SetAllUntouched(attrs: map<string, Datum>, items: seq<(string, Datum)>, key: string)
    requires forall i :: 0 <= i < |items| ==> items[i].0 != key
    ensures key in SetAll(attrs, items) <==> key in attrs
    ensures key in attrs ==> SetAll(attrs, items)[key] == attrs[key]
    decreases |items|
  {
    if items != [] {
      SetAllUntouched(attrs, items[..|items| - 1], key);
    }
  }

  /** An attribute the update names takes the value of its last item. */
  lemma {:induction false} SetAllLast(attrs: map<string, Datum>, items: seq<(string, Datum)>, i: nat)
    requires i < |items|
    requires forall j :: i < j < |items| ==> items[j].0 != items[i].0
    ensures items[i].0 in SetAll(attrs, items) && SetAll(attrs, items)[items[i].0] == items[i].1
    decreases |items|
  {
    if i < |items| - 1 {
      var front := items[..|items| - 1];
      assert front[i] == items[i];
      SetAllLast(attrs, front, i);
    }
  }

  /** Python's truthiness of an optional float: present and not 0.0. */
  predicate Truthy(x: Option<real>) {
    x.Some? && x.value != 0.0
  }

  /** The runner. `current` is the open-experiment slot; `loopRunning`
      stands for the background snapshot thread. */
  class Runner {
    const settings: Settings
    const overrides: Overrides
    const pipelineType: string
    const pipelineConfig: Datum
    var current: Option<ExperimentRecord>
    var loopRunning: bool
    ghost var log: seq<Write>

    /** The open record's snapshots are within the cap. */
    ghost predicate Valid()
      reads this
    {
      current.Some? ==> |current.value.snapshots| <= Cap()
    }

    constructor (settings: Settings, overrides: Overrides, pipelineType: string, pipelineConfig: Datum)
      ensures this.settings == settings && this.overrides == overrides
      ensures this.pipelineType == pipelineType && this.pipelineConfig == pipelineConfig
      ensures current == None && !loopRunning && log == []
      ensures Valid()
    {
      this.settings := settings;
      this.overrides := overrides;
      this.pipelineType := pipelineType;
      this.pipelineConfig := pipelineConfig;
      current := None;
      loopRunning := false;
      log := [];
    }

    /** The `snapshot_interval` property. */
    function SnapshotInterval(): (r: Option<real>)
      reads this
      ensures Truthy(overrides.snapshotInterval) ==> r == overrides.snapshotInterval
      ensures !Truthy(overrides.snapshotInterval) ==> r == settings.snapshotInterval
    {
      RealOr(overrides.snapshotInterval, settings.snapshotInterval)
    }

    /** The `max_snapshots` property. */
    function MaxSnapshots(): (r: int)
      reads this
      ensures overrides.maxSnapshots.Some? && overrides.maxSnapshots.value != 0 ==> r == overrides.maxSnapshots.value
      ensures overrides.maxSnapshots == None || overrides.maxSnapshots == Some(0) ==> r == settings.maxSnapshots
    {
      IntOr(overrides.maxSnapshots, settings.maxSnapshots)
    }

    /** The number of snapshots a record can reach: a negative maximum admits none. */
    function Cap(): (r: nat)
      reads this
      ensures r == MaxSnapshots() || (MaxSnapshots() < 0 && r == 0)
    {
      if MaxSnapshots() < 0 then 0 else MaxSnapshots()
    }

    /** The `snapshot_on_metrics` property: a False override cannot turn a
        True setting off. */
    function SnapshotOnMetrics(): (r: bool)
      reads this
      ensures r <==> overrides.snapshotOnMetrics == Some(true) || settings.snapshotOnMetrics
    {
      BoolOr(overrides.snapshotOnMetrics, settings.snapshotOnMetrics)
    }

    /** The `collection_name` property. */
    function CollectionName(): (r: string)
      reads this
      ensures overrides.collectionName.Some? && overrides.collectionName.value != "" ==> r == overrides.collectionName.value
      ensures overrides.collectionName == None || overrides.collectionName == Some("") ==> r == settings.collectionName
    {
      StrOr(overrides.collectionName, settings.collectionName)
    }

    /** The `snapshot_compressor` property. */
    function SnapshotCompressor(): (r: Option<string>)
      reads this
      ensures overrides.snapshotCompressor.Some? && overrides.snapshotCompressor.value != "" ==> r == overrides.snapshotCompressor
      ensures overrides.snapshotCompressor == None || overrides.snapshotCompressor == Some("") ==> r == settings.compressorType
    {
      if overrides.snapshotCompressor.Some? && overrides.snapshotCompressor.value != "" then overrides.snapshotCompressor
      else settings.compressorType
    }

    /** `start`: open a new record, start the snapshot loop when the interval
        (the argument, else the property) is truthy, and save the record in
        the collection (the argument, else the property). */
    method Start(name: string, input: Datum, id: string, now: int,
                 interval: Option<real>, collection: Option<string>)
      returns (r: Result<ExperimentRecord, string>)
      requires Valid()
      modifies this
      ensures Valid()
      ensures old(current).Some? ==>
        r == Failure(AlreadyStarted) && current == old(current) && loopRunning == old(loopRunning) && log == old(log)
      ensures old(current) == None ==>
        var rec := FreshRecord(id, name, now, pipelineType, pipelineConfig, input);
        && r == Success(rec) && current == Some(rec)
        && loopRunning == (Truthy(RealOr(interval, SnapshotInterval())) || old(loopRunning))
        && log == old(log) + [Saved(StrOr(collection, CollectionName()), rec)]
    {
      var loopInterval := RealOr(interval, SnapshotInterval());
      var target := StrOr(collection, CollectionName());
      if current.Some? {
        return Failure(AlreadyStarted);
      }
      var rec := FreshRecord(id, name, now, pipelineType, pipelineConfig, input);
      current := Some(rec);
      if Truthy(loopInterval) {
        loopRunning := true;
      }
      log := log + [Saved(target, rec)];
      return Success(rec);
    }

    /** `take_snapshot` of the pipeline's current `state`: at or above the cap
        nothing happens; below it the state is put after the earlier
        snapshots and the list is written to the settings' collection. */
    method TakeSnapshot(state: Datum) returns (r: Result<(), string>)
      requires Valid()
      modifies this
      ensures Valid()
      ensures loopRunning == old(loopRunning)
      ensures old(current) == None ==> r == Failure(NotStarted) && current == None && log == old(log)
      ensures old(current).Some? ==>
        var rec := old(current).value;
        && r == Success(())
        && current == Some(WithSnapshot(rec, MaxSnapshots(), state))
        && log == old(log) + SnapshotWrites(settings.collectionName, rec, MaxSnapshots(), state)
    {
      if current == None {
        return Failure(NotStarted);
      }
      var rec := current.value;
      if |rec.snapshots| >= MaxSnapshots() {
        return Success(());
      }
      current := Some(rec.(snapshots := rec.snapshots + [state]));
      log := log + [SnapshotsUpdated(settings.collectionName, rec.id, rec.snapshots + [state])];
      return Success(());
    }

    /** `record_metric`: overwrite the metric, write the metric map, then
        offer a snapshot when the settings' `snapshot_on_metrics` is on (the
        runner's own override is not consulted). */
    method RecordMetric(name: string, value: Datum, state: Datum) returns (r: Result<(), string>)
      requires Valid()
      modifies this
      ensures Valid()
      ensures loopRunning == old(loopRunning)
      ensures old(current) == None ==> r == Failure(NotStarted) && current == None && log == old(log)
      ensures old(current).Some? ==>
        var rec := old(current).value;
        var measured := rec.(metrics := rec.metrics[name := value]);
        && r == Success(())
        && current == Some(if settings.snapshotOnMetrics then WithSnapshot(measured, MaxSnapshots(), state) else measured)
        && log == old(log) + [MetricsUpdated(settings.collectionName, rec.id, measured.metrics)]
                  + (if settings.snapshotOnMetrics then SnapshotWrites(settings.collectionName, measured, MaxSnapshots(), state)
                     else [])
    {
      if current == None {
        return Failure(NotStarted);
      }
      var rec := current.value;
      var measured := rec.(metrics := rec.metrics[name := value]);
      current := Some(measured);
      log := log + [MetricsUpdated(settings.collectionName, rec.id, measured.metrics)];
      if settings.snapshotOnMetrics {
        r := TakeSnapshot(state);
      }
      return Success(());
    }

    /** `update_current_experiment`: set each attribute of the update's
        items on the open record, in order; nothing is written to the database. */
    method UpdateCurrentExperiment(update: seq<(string, Datum)>) returns (r: Result<(), string>)
      requires Valid()
      modifies this
      ensures Valid()
      ensures loopRunning == old(loopRunning) && log == old(log)
      ensures old(current) == None ==> r == Failure(NotStarted) && current == None
      ensures old(current).Some? ==>
        && r == Success(())
        && current == Some(old(current).value.(attributes := SetAll(old(current).value.attributes, update)))
    {
      if current == None {
        return Failure(NotStarted);
      }
      var rec := current.value;
      var attrs := rec.attributes;
      for i := 0 to |update|
        invariant attrs == SetAll(rec.attributes, update[..i])
      {
        assert update[..i + 1][..i] == update[..i];
        attrs := attrs[update[i].0 := update[i].1];
      }
      assert update[..|update|] == update;
      current := Some(rec.(attributes := attrs));
      return Success(());
    }

    /** `end`: stop the snapshot loop, set the status and end time, offer a
        final snapshot, write the whole record and empty the slot, so that a
        later `start` succeeds. `status` None stands for the omitted argument
        and gives "completed"; an explicit Python `None`, which `end` would
        store as it is, is not modelled. */
    method End(status: Option<string>, now: int, state: Datum) returns (r: Result<ExperimentRecord, string>)
      requires Valid()
      modifies this
      ensures Valid()
      ensures old(current) == None ==>
        r == Failure(NotStarted) && current == None && log == old(log) && loopRunning == old(loopRunning)
      ensures old(current).Some? ==>
        var closed := WithSnapshot(old(current).value.(status := status.GetOr("completed"), endTime := Some(now)),
                                   MaxSnapshots(), state);
        && r == Success(closed)
        && current == None && !loopRunning
        && log == old(log) + SnapshotWrites(settings.collectionName, old(current).value, MaxSnapshots(), state)
                  + [RecordUpdated(settings.collectionName, closed.id, closed)]
    {
      if current == None {
        return Failure(NotStarted);
      }
      loopRunning := false;
      var rec := current.value;
      current := Some(rec.(status := status.GetOr("completed"), endTime := Some(now)));
      var _ := TakeSnapshot(state);
      var closed := current.value;
      log := log + [RecordUpdated(settings.collectionName, closed.id, closed)];
      current := None;
      return Success(closed);
    }
  }

  /** How an instance assignment `self.<name> = …` treats a name: a plain
      instance attribute, a property with a setter, or a property without one. */
  datatype AttrKind = Plain | SettableProperty | ReadOnlyProperty

  /** The class attributes of the runner: `db_client` has a setter, the other
      properties only a getter; every other name is a plain attribute. */
  function AttrKindOf(name: string): (k: AttrKind)
    ensures k == SettableProperty <==> name == "db_client"
    ensures k == ReadOnlyProperty <==> name in PropertyNames && name != "db_client"
  {
    if name == "db_client" then SettableProperty
    else if name in PropertyNames then ReadOnlyProperty
    else Plain
  }

  const PropertyNames: set<string> := {"snapshot_interval", "max_snapshots", "snapshot_on_metrics",
                                       "collection_name", "db_client", "current_experiment",
                                       "snapshot_compressor"}

  /** The instance attribute an assignment leaves behind: the setter of
      `db_client` stores into `_db_client`. */
  function StoredAs(name: string): string {
    if AttrKindOf(name) == SettableProperty then "_db_client" else name
  }

  /** The instance attribute each property's getter reads. */
  function GetterReads(p: string): string
    requires p in PropertyNames
  {
    if p == "snapshot_interval" then "_snapshot_interval"
    else if p == "max_snapshots" then "_max_snapshots"
    else if p == "snapshot_on_metrics" then "_snapshot_on_metrics"
    else if p == "collection_name" then "_collection_name"
    else if p == "db_client" then "_db_client"
    else if p == "current_experiment" then "_current_experiment"
    else "_snapshot_compressor"
  }

  function NoSetter(name: string): string {
    "AttributeError: property '" + name + "' of 'ExperimentRunner' object has no setter"
  }

  /** Run the assignments in order on an instance holding `attrs`; the first
      name that is a property without a setter raises. */
  function RunAssignments(attrs: set<string>, names: seq<string>): Result<set<string>, string>
    decreases |names|
  {
    if names == [] then Success(attrs)
    else if AttrKindOf(names[0]) == ReadOnlyProperty then Failure(NoSetter(names[0]))
    else RunAssignments(attrs + {StoredAs(names[0])}, names[1..])
  }

  /** The instance attributes `names` leaves behind when nothing raises. */
  function StoredSet(names: seq<string>): set<string> {
    set i | 0 <= i < |names| :: StoredAs(names[i])
  }

  /** Assignments to names none of which is a read-only property all take
      effect, each under the name it is stored as. */
  lemma {:induction false} RunAssignmentsSucceeds(attrs: set<string>, names: seq<string>)
    requires forall i :: 0 <= i < |names| ==> AttrKindOf(names[i]) != ReadOnlyProperty
    ensures RunAssignments(attrs, names) == Success(attrs + StoredSet(names))
    decreases |names|
  {
    if names != [] {
      var rest := names[1..];
      forall i | 0 <= i < |rest| ensures AttrKindOf(rest[i]) != ReadOnlyProperty {
        assert rest[i] == names[i + 1];
      }
      RunAssignmentsSucceeds(attrs + {StoredAs(names[0])}, rest);
      assert StoredSet(names) == {StoredAs(names[0])} + StoredSet(rest) by {
        forall x | x in StoredSet(names) ensures x in {StoredAs(names[0])} + StoredSet(rest) {
          var i :| 0 <= i < |names| && x == StoredAs(names[i]);
          if i > 0 {
            assert rest[i - 1] == names[i];
            assert StoredAs(rest[i - 1]) in StoredSet(rest);
          }
        }
        forall x | x in StoredSet(rest) ensures x in StoredSet(names) {
          var i :| 0 <= i < |rest| && x == StoredAs(rest[i]);
          assert names[i + 1] == rest[i];
          assert StoredAs(names[i + 1]) in StoredSet(names);
        }
        assert StoredAs(names[0]) in StoredSet(names);
      }
      assert AttrKindOf(names[0]) != ReadOnlyProperty;
      assert RunAssignments(attrs, names) == RunAssignments(attrs + {StoredAs(names[0])}, rest);
      assert attrs + {StoredAs(names[0])} + StoredSet(rest) == attrs + StoredSet(names);
    } else {
      assert StoredSet(names) == {};
      assert RunAssignments(attrs, names) == Success(attrs);
      assert attrs + StoredSet(names) == attrs;
    }
  }

  /** The first assignment to a read-only property raises its AttributeError,
      whatever comes after it. */
  lemma {:induction false} RunAssignmentsFailsAt(attrs: set<string>, names: seq<string>, i: nat)
    requires i < |names| && AttrKindOf(names[i]) == ReadOnlyProperty
    requires forall j :: 0 <= j < i ==> AttrKindOf(names[j]) != ReadOnlyProperty
    ensures RunAssignments(attrs, names) == Failure(NoSetter(names[i]))
    decreases i
  {
    if i > 0 {
      forall j | 0 <= j < i - 1 ensures AttrKindOf(names[1..][j]) != ReadOnlyProperty {
        assert names[1..][j] == names[j + 1];
      }
      RunAssignmentsFailsAt(attrs + {StoredAs(names[0])}, names[1..], i - 1);
    }
  }

  /** The attribute assignments of `__init__` in order, the one to
      `current_experiment` included. */
  const InitAssignments: seq<string> := ["pipeline", "db_client", "_snapshot_thread", "_current_experiment",
                                         "_snapshot_thread", "_should_stop", "current_experiment",
                                         "_snapshot_interval", "_max_snapshots", "_snapshot_on_metrics",
                                         "_collection_name", "_snapshot_compressor"]

  /** The same assignments without the one to `current_experiment`. */
  const CorrectedAssignments: seq<string> := ["pipeline", "db_client", "_snapshot_thread", "_current_experiment",
                                              "_snapshot_thread", "_should_stop",
                                              "_snapshot_interval", "_max_snapshots", "_snapshot_on_metrics",
                                              "_collection_name", "_snapshot_compressor"]

  /** The constructor as written. */
  function ConstructAsWritten(): Result<set<string>, string> {
    RunAssignments({}, InitAssignments)
  }

  /** A name with a leading underscore is none of the properties. */
  lemma PrivateIsPlain(name: string)
    requires |name| > 0 && name[0] == '_'
    ensures AttrKindOf(name) == Plain
  {
    assert forall p :: p in PropertyNames ==> p[0] != '_';
  }

  /** "pipeline", "db_client" and the underscored names are assignable. */
  lemma AssignableNames(names: seq<string>, j: nat)
    requires j < |names|
    requires names[j] == "pipeline" || names[j] == "db_client" || (|names[j]| > 0 && names[j][0] == '_')
    ensures AttrKindOf(names[j]) != ReadOnlyProperty
  {
    if |names[j]| > 0 && names[j][0] == '_' {
      PrivateIsPlain(names[j]);
    } else if names[j] == "pipeline" {
      assert "pipeline" !in PropertyNames;
    }
  }

  /** Constructing a runner as written raises at the assignment to
      `current_experiment`, after the six assignments before it went through. */
  lemma ConstructAsWrittenFails()
    ensures AttrKindOf(InitAssignments[6]) == ReadOnlyProperty
    ensures RunAssignments({}, InitAssignments[..6]).Success?
    ensures ConstructAsWritten() == Failure(NoSetter("current_experiment"))
  {
    InitPrefixAssignable();
    RunAssignmentsFailsAt({}, InitAssignments, 6);
    RunAssignmentsSucceeds({}, InitAssignments[..6]);
  }

  lemma InitPrefixAssignable()
    ensures forall j :: 0 <= j < 6 ==> AttrKindOf(InitAssignments[j]) != ReadOnlyProperty
    ensures forall j :: 0 <= j < 6 ==> AttrKindOf(InitAssignments[..6][j]) != ReadOnlyProperty
  {
    var names := InitAssignments;
    forall j | 0 <= j < 6 ensures AttrKindOf(names[j]) != ReadOnlyProperty {
      AssignableNames(names, j);
    }
  }

  /** The corrected list is the written one without its seventh assignment. */
  lemma CorrectedDropsOneAssignment()
    ensures CorrectedAssignments == InitAssignments[..6] + InitAssignments[7..]
  {
  }

  lemma CorrectedAssignable()
    ensures forall j :: 0 <= j < |CorrectedAssignments| ==> AttrKindOf(CorrectedAssignments[j]) != ReadOnlyProperty
  {
    var names := CorrectedAssignments;
    forall j | 0 <= j < |names| ensures AttrKindOf(names[j]) != ReadOnlyProperty {
      AssignableNames(names, j);
    }
  }

  /** Each property's getter reads an attribute the corrected assignments set. */
  lemma CorrectedBacksProperties(p: string)
    requires p in PropertyNames
    ensures GetterReads(p) in StoredSet(CorrectedAssignments)
  {
    var names := CorrectedAssignments;
    var k := if p == "db_client" then 1
             else if p == "current_experiment" then 3
             else if p == "snapshot_interval" then 6
             else if p == "max_snapshots" then 7
             else if p == "snapshot_on_metrics" then 8
             else if p == "collection_name" then 9
             else 10;
    if k != 1 {
      PrivateIsPlain(names[k]);
    }
    assert StoredAs(names[k]) == GetterReads(p);
    assert StoredAs(names[k]) in StoredSet(names);
  }

  /** Without the assignment to `current_experiment` the constructor goes
      through, and every property's getter reads an attribute it set. */
  lemma CorrectedConstructionSucceeds()
    ensures RunAssignments({}, CorrectedAssignments).Success?
    ensures forall p :: p in PropertyNames ==> GetterReads(p) in RunAssignments({}, CorrectedAssignments).value
  {
    CorrectedAssignable();
    RunAssignmentsSucceeds({}, CorrectedAssignments);
    forall p | p in PropertyNames ensures GetterReads(p) in StoredSet(CorrectedAssignments) {
      CorrectedBacksProperties(p);
    }
  }

  /** `take_snapshot` as written: below the cap it tests a name that is
      defined nowhere, so it raises before appending anything. */
  function TakeSnapshotAsWritten(rec: ExperimentRecord, cap: int, state: Datum): (r: Result<ExperimentRecord, string>)
    ensures r.Success? ==> r.value == rec
  {
    if |rec.snapshots| >= cap then Success(rec)
    else Failure("NameError: name 'compress_snapshots' is not defined")
  }

  /** So a freshly started record never gets a snapshot, where the intended
      behaviour puts the state in. */
  lemma TakeSnapshotAsWrittenNeverAppends(rec: ExperimentRecord, state: Datum)
    requires rec.snapshots == []
    ensures TakeSnapshotAsWritten(rec, DefaultSettings.maxSnapshots, state).Failure?
    ensures WithSnapshot(rec, DefaultSettings.maxSnapshots, state).snapshots == [state]
  {
  }

  /** `start` as written: `compress_snapshots or self.compress_snapshots`
      reads an attribute the runner never has unless the argument is truthy,
      and it does so before the slot is checked. */
  function StartAsWritten(compress: Option<bool>, open: bool): (r: Result<(), string>)
    ensures r.Success? <==> compress == Some(true) && !open
  {
    if compress != Some(true) then Failure("AttributeError: 'ExperimentRunner' object has no attribute 'compress_snapshots'")
    else if open then Failure(AlreadyStarted)
    else Success(())
  }

  /** Called without the argument, it raises even with the slot empty. */
  lemma StartAsWrittenFailsByDefault()
    ensures StartAsWritten(None, false) != Success(())
    ensures StartAsWritten(None, true) != Failure(AlreadyStarted)
  {
  }
}
