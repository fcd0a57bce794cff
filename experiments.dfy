/** The experiment orchestration: for each configured field count, ask the
    factory for a class task and a struct task, time the class task and then
    the struct task with the same repetition count, and collect one point per
    field count into each of two series of a chart. */
module Experiments {
  import opened TaskFactories

  /** One point of a series: a field count and the duration measured for it. */
  datatype ExperimentResult<D> = ExperimentResult(fieldCount: int, duration: D)

  /** A chart: its title and the class and struct series, in measurement order. */
  datatype ChartData<D> = ChartData(
    title: string,
    classPoints: seq<ExperimentResult<D>>,
    structPoints: seq<ExperimentResult<D>>)

  /** One call of the benchmark: the task timed and how many times it is run. */
  datatype Measurement = Measurement(task: Task, repetitionsCount: int)

  /** The benchmark, as an oracle: the duration, in an unspecified type `D`,
      that it reports when it times `task` run `repetitionsCount` times as the
      `n`-th measurement of a run (counting from 0). The position lets two
      measurements of the same task report different durations, as wall-clock
      timings do. */
  type Benchmark<D> = (Task, int, nat) -> D

  /** The task of representation `kind` that `factory` builds for `fieldCount`. */
  function TaskFor(factory: TaskFactory, kind: RepresentationKind, fieldCount: int): Task {
    if kind == Class then factory.CreateClassTask(fieldCount) else factory.CreateStructTask(fieldCount)
  }

  /** Where, in a run, the measurement of `kind` for the `i`-th field count
      falls: the class task of a field count is timed just before its struct task. */
  function Position(i: nat, kind: RepresentationKind): nat {
    if kind == Class then 2 * i else 2 * i + 1
  }

  /** The benchmark calls a run over `fieldCounts` makes, in order. */
  function Schedule(factory: TaskFactory, fieldCounts: seq<int>, repetitionsCount: int): (calls: seq<Measurement>)
    ensures |calls| == 2 * |fieldCounts|
    decreases |fieldCounts|
  {
    if fieldCounts == [] then []
    else
      var last := |fieldCounts| - 1;
      Schedule(factory, fieldCounts[..last], repetitionsCount)
        + [Measurement(factory.CreateClassTask(fieldCounts[last]), repetitionsCount),
           Measurement(factory.CreateStructTask(fieldCounts[last]), repetitionsCount)]
  }

  /** The series of representation `kind` that a run over `fieldCounts` collects. */
  function Points<D>(kind: RepresentationKind, factory: TaskFactory, fieldCounts: seq<int>,
                     repetitionsCount: int, benchmark: Benchmark<D>): (points: seq<ExperimentResult<D>>)
    ensures |points| == |fieldCounts|
    decreases |fieldCounts|
  {
    if fieldCounts == [] then []
    else
      var last := |fieldCounts| - 1;
      var task := TaskFor(factory, kind, fieldCounts[last]);
      Points(kind, factory, fieldCounts[..last], repetitionsCount, benchmark)
        + [ExperimentResult(fieldCounts[last], benchmark(task, repetitionsCount, Position(last, kind)))]
  }

  /** The chart a run over `fieldCounts` produces. */
  function ExpectedChart<D>(factory: TaskFactory, fieldCounts: seq<int>, repetitionsCount: int,
                            benchmark: Benchmark<D>): ChartData<D>
  {
    ChartData(factory.ChartTitle(),
              Points(Class, factory, fieldCounts, repetitionsCount, benchmark),
              Points(Struct, factory, fieldCounts, repetitionsCount, benchmark))
  }

  /** The measurement of `kind` for the `i`-th field count times that field
      count's task of that kind with the caller's repetition count. */
  lemma {:induction false} ScheduleAt(factory: TaskFactory, fieldCounts: seq<int>, repetitionsCount: int,
                                      i: nat, kind: RepresentationKind)
    requires i < |fieldCounts|
    ensures Schedule(factory, fieldCounts, repetitionsCount)[Position(i, kind)]
            == Measurement(TaskFor(factory, kind, fieldCounts[i]), repetitionsCount)
    decreases |fieldCounts|
  {
    var last := |fieldCounts| - 1;
    if i < last {
      ScheduleAt(factory, fieldCounts[..last], repetitionsCount, i, kind);
      assert fieldCounts[..last][i] == fieldCounts[i];
    }
  }

  /** The whole order of a run: class(f0), struct(f0), class(f1), struct(f1), ... */
  lemma ScheduleInterleaves(factory: TaskFactory, fieldCounts: seq<int>, repetitionsCount: int)
    ensures var calls := Schedule(factory, fieldCounts, repetitionsCount);
      forall j :: 0 <= j < |calls| ==>
        calls[j] == Measurement(TaskFor(factory, if j % 2 == 0 then Class else Struct, fieldCounts[j / 2]),
                                repetitionsCount)
  {
    var calls := Schedule(factory, fieldCounts, repetitionsCount);
    forall j | 0 <= j < |calls|
      ensures calls[j] == Measurement(TaskFor(factory, if j % 2 == 0 then Class else Struct, fieldCounts[j / 2]),
                                      repetitionsCount)
    {
      var kind := if j % 2 == 0 then Class else Struct;
      assert Position(j / 2, kind) == j;
      ScheduleAt(factory, fieldCounts, repetitionsCount, j / 2, kind);
    }
  }

  /** Every benchmark call of a run uses the caller's repetition count
      unchanged, times a task of the factory's experiment, and only for a
      configured field count. */
  lemma {:induction false} ScheduleUniform(factory: TaskFactory, fieldCounts: seq<int>, repetitionsCount: int)
    ensures forall m :: m in Schedule(factory, fieldCounts, repetitionsCount) ==>
      m.repetitionsCount == repetitionsCount &&
      m.task.Experiment() == factory.Experiment() &&
      m.task.fieldCount in fieldCounts
    decreases |fieldCounts|
  {
    if fieldCounts != [] {
      var last := |fieldCounts| - 1;
      ScheduleUniform(factory, fieldCounts[..last], repetitionsCount);
      forall m | m in Schedule(factory, fieldCounts[..last], repetitionsCount)
        ensures m.task.fieldCount in fieldCounts
      {
        var j :| 0 <= j < last && fieldCounts[..last][j] == m.task.fieldCount;
        assert fieldCounts[j] == m.task.fieldCount;
      }
    }
  }

  /** The `i`-th point of a series is the `i`-th field count paired with the
      benchmark's reading for that field count's task of the series' kind. */
  lemma {:induction false} PointsAt<D>(kind: RepresentationKind, factory: TaskFactory, fieldCounts: seq<int>,
                                       repetitionsCount: int, benchmark: Benchmark<D>, i: nat)
    requires i < |fieldCounts|
    ensures Points(kind, factory, fieldCounts, repetitionsCount, benchmark)[i]
            == ExperimentResult(fieldCounts[i],
                                benchmark(TaskFor(factory, kind, fieldCounts[i]), repetitionsCount, Position(i, kind)))
    decreases |fieldCounts|
  {
    var last := |fieldCounts| - 1;
    if i < last {
      PointsAt(kind, factory, fieldCounts[..last], repetitionsCount, benchmark, i);
      assert fieldCounts[..last][i] == fieldCounts[i];
    }
  }

  /** Each duration in a series is what the benchmark reported for the
      corresponding call of the run's schedule. */
  lemma PointsReadSchedule<D>(kind: RepresentationKind, factory: TaskFactory, fieldCounts: seq<int>,
                              repetitionsCount: int, benchmark: Benchmark<D>, i: nat)
    requires i < |fieldCounts|
    ensures var m := Schedule(factory, fieldCounts, repetitionsCount)[Position(i, kind)];
      Points(kind, factory, fieldCounts, repetitionsCount, benchmark)[i]
      == ExperimentResult(fieldCounts[i], benchmark(m.task, m.repetitionsCount, Position(i, kind)))
  {
    PointsAt(kind, factory, fieldCounts, repetitionsCount, benchmark, i);
    ScheduleAt(factory, fieldCounts, repetitionsCount, i, kind);
  }

  /** After the first `k` field counts, a series holds exactly the first `k`
      points of the finished series. */
  lemma {:induction false} PointsPrefix<D>(kind: RepresentationKind, factory: TaskFactory, fieldCounts: seq<int>,
                                           repetitionsCount: int, benchmark: Benchmark<D>, k: nat)
    requires k <= |fieldCounts|
    ensures Points(kind, factory, fieldCounts[..k], repetitionsCount, benchmark)
            == Points(kind, factory, fieldCounts, repetitionsCount, benchmark)[..k]
    decreases |fieldCounts|
  {
    if k < |fieldCounts| {
      var last := |fieldCounts| - 1;
      PointsPrefix(kind, factory, fieldCounts[..last], repetitionsCount, benchmark, k);
      assert fieldCounts[..last][..k] == fieldCounts[..k];
    } else {
      assert fieldCounts[..k] == fieldCounts;
    }
  }

  /** The two series of a chart are as long as the configured field counts and
      agree, position by position, with them (so with each other): no field
      count is dropped, added or moved. */
  lemma SeriesAligned<D>(factory: TaskFactory, fieldCounts: seq<int>, repetitionsCount: int, benchmark: Benchmark<D>)
    ensures var chart := ExpectedChart(factory, fieldCounts, repetitionsCount, benchmark);
      |chart.classPoints| == |chart.structPoints| == |fieldCounts| &&
      forall i :: 0 <= i < |fieldCounts| ==>
        chart.classPoints[i].fieldCount == fieldCounts[i] && chart.structPoints[i].fieldCount == fieldCounts[i]
  {
    forall i | 0 <= i < |fieldCounts|
      ensures Points(Class, factory, fieldCounts, repetitionsCount, benchmark)[i].fieldCount == fieldCounts[i]
      ensures Points(Struct, factory, fieldCounts, repetitionsCount, benchmark)[i].fieldCount == fieldCounts[i]
    {
      PointsAt(Class, factory, fieldCounts, repetitionsCount, benchmark, i);
      PointsAt(Struct, factory, fieldCounts, repetitionsCount, benchmark, i);
    }
  }

  /** The class point of each field count holds the reading of the run's
      measurement just before the struct point's, and each reading is of the
      measurement recorded at that position of the schedule. */
  lemma SeriesDurations<D>(factory: TaskFactory, fieldCounts: seq<int>, repetitionsCount: int, benchmark: Benchmark<D>)
    ensures var chart := ExpectedChart(factory, fieldCounts, repetitionsCount, benchmark);
      var calls := Schedule(factory, fieldCounts, repetitionsCount);
      forall i :: 0 <= i < |fieldCounts| ==>
        chart.classPoints[i].duration == benchmark(calls[2 * i].task, repetitionsCount, 2 * i) &&
        chart.structPoints[i].duration == benchmark(calls[2 * i + 1].task, repetitionsCount, 2 * i + 1)
  {
    var calls := Schedule(factory, fieldCounts, repetitionsCount);
    forall i | 0 <= i < |fieldCounts|
      ensures Points(Class, factory, fieldCounts, repetitionsCount, benchmark)[i].duration
              == benchmark(calls[2 * i].task, repetitionsCount, 2 * i)
      ensures Points(Struct, factory, fieldCounts, repetitionsCount, benchmark)[i].duration
              == benchmark(calls[2 * i + 1].task, repetitionsCount, 2 * i + 1)
    {
      PointsReadSchedule(Class, factory, fieldCounts, repetitionsCount, benchmark, i);
      PointsReadSchedule(Struct, factory, fieldCounts, repetitionsCount, benchmark, i);
    }
  }

  /** The shape of a chart (title, lengths, field counts) does not depend on
      the timings: two benchmarks, even with different duration types, give
      charts that differ in their durations only. */
  lemma StructureIndependentOfTiming<D, E>(factory: TaskFactory, fieldCounts: seq<int>, repetitionsCount: int,
                                           b1: Benchmark<D>, b2: Benchmark<E>)
    ensures var c1 := ExpectedChart(factory, fieldCounts, repetitionsCount, b1);
      var c2 := ExpectedChart(factory, fieldCounts, repetitionsCount, b2);
      c1.title == c2.title &&
      |c1.classPoints| == |c2.classPoints| && |c1.structPoints| == |c2.structPoints| &&
      (forall i :: 0 <= i < |c1.classPoints| ==> c1.classPoints[i].fieldCount == c2.classPoints[i].fieldCount) &&
      (forall i :: 0 <= i < |c1.structPoints| ==> c1.structPoints[i].fieldCount == c2.structPoints[i].fieldCount)
  {
    SeriesAligned(factory, fieldCounts, repetitionsCount, b1);
    SeriesAligned(factory, fieldCounts, repetitionsCount, b2);
  }

  /** Runs the experiment of `factory` over `fieldCounts` (the configured field
      counts), timing every task with `benchmark`. `calls` records the
      benchmark calls in the order they are made. */
  method GenerateChartData<D>(fieldCounts: seq<int>, benchmark: Benchmark<D>, repetitionsCount: int,
                              factory: TaskFactory)
    returns (chart: ChartData<D>, ghost calls: seq<Measurement>)
    ensures chart == ExpectedChart(factory, fieldCounts, repetitionsCount, benchmark)
    ensures calls == Schedule(factory, fieldCounts, repetitionsCount)
    ensures chart.title == factory.ChartTitle()
    ensures |chart.classPoints| == |chart.structPoints| == |fieldCounts|
    ensures forall i :: 0 <= i < |fieldCounts| ==>
      chart.classPoints[i].fieldCount == fieldCounts[i] && chart.structPoints[i].fieldCount == fieldCounts[i]
    ensures forall i :: 0 <= i < |fieldCounts| ==>
      chart.classPoints[i].duration == benchmark(calls[2 * i].task, repetitionsCount, 2 * i) &&
      chart.structPoints[i].duration == benchmark(calls[2 * i + 1].task, repetitionsCount, 2 * i + 1)
  {
    var classMeasurements: seq<ExperimentResult<D>> := [];
    var structMeasurements: seq<ExperimentResult<D>> := [];
    calls := [];

    for i := 0 to |fieldCounts|
      invariant classMeasurements == Points(Class, factory, fieldCounts[..i], repetitionsCount, benchmark)
      invariant structMeasurements == Points(Struct, factory, fieldCounts[..i], repetitionsCount, benchmark)
      invariant calls == Schedule(factory, fieldCounts[..i], repetitionsCount)
    {
      var fieldCount := fieldCounts[i];
      var classTask := factory.CreateClassTask(fieldCount);
      var structTask := factory.CreateStructTask(fieldCount);

      var classDuration := benchmark(classTask, repetitionsCount, 2 * i);
      calls := calls + [Measurement(classTask, repetitionsCount)];
      var structDuration := benchmark(structTask, repetitionsCount, 2 * i + 1);
      calls := calls + [Measurement(structTask, repetitionsCount)];

      classMeasurements := classMeasurements + [ExperimentResult(fieldCount, classDuration)];
      structMeasurements := structMeasurements + [ExperimentResult(fieldCount, structDuration)];
      assert fieldCounts[..i + 1][..i] == fieldCounts[..i];
    }
    assert fieldCounts[..|fieldCounts|] == fieldCounts;

    chart := ChartData(factory.ChartTitle(), classMeasurements, structMeasurements);
    SeriesAligned(factory, fieldCounts, repetitionsCount, benchmark);
    SeriesDurations(factory, fieldCounts, repetitionsCount, benchmark);
  }

  /** The array-creation experiment: always the array-creation factory. */
  method BuildChartDataForArrayCreation<D>(fieldCounts: seq<int>, benchmark: Benchmark<D>, repetitionsCount: int)
    returns (chart: ChartData<D>, ghost calls: seq<Measurement>)
    ensures chart == ExpectedChart(ArrayCreationTaskFactory, fieldCounts, repetitionsCount, benchmark)
    ensures calls == Schedule(ArrayCreationTaskFactory, fieldCounts, repetitionsCount)
    ensures chart.title == "Array creation"
    ensures forall m :: m in calls ==> m.task.Experiment() == ArrayCreation
  {
    chart, calls := GenerateChartData(fieldCounts, benchmark, repetitionsCount, ArrayCreationTaskFactory);
    ScheduleUniform(ArrayCreationTaskFactory, fieldCounts, repetitionsCount);
  }

  /** The method-call experiment: always the method-call factory. */
  method BuildChartDataForMethodCall<D>(fieldCounts: seq<int>, benchmark: Benchmark<D>, repetitionsCount: int)
    returns (chart: ChartData<D>, ghost calls: seq<Measurement>)
    ensures chart == ExpectedChart(MethodCallTaskFactory, fieldCounts, repetitionsCount, benchmark)
    ensures calls == Schedule(MethodCallTaskFactory, fieldCounts, repetitionsCount)
    ensures chart.title == "Method call with argument"
    ensures forall m :: m in calls ==> m.task.Experiment() == MethodCall
  {
    chart, calls := GenerateChartData(fieldCounts, benchmark, repetitionsCount, MethodCallTaskFactory);
    ScheduleUniform(MethodCallTaskFactory, fieldCounts, repetitionsCount);
  }
}
