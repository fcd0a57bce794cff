# Struct-versus-class benchmark: experiment orchestration

This project models, in Dafny, the experiment orchestration of a small C#
benchmark (`StructBenchmarking`) that compares value types ("struct") with
reference types ("class"). Two experiments exist: creating arrays of such
types, and passing them as method arguments. For each configured field count
the orchestrator asks a task factory for a class task and a struct task. It
times the class task, then the struct task, with the caller's repetition count.
It appends one `ExperimentResult(fieldCount, duration)` to each of two lists.
The result is a `ChartData` carrying the factory's title and the two series.

Files:

- `task_factories.dfy` (module `TaskFactories`): the four task types as
  descriptors (`Task`), and the two factories (`TaskFactory`, one constructor
  per factory class) with `CreateClassTask`, `CreateStructTask` and
  `ChartTitle`. `MakeTask` is a reference definition of "the task of an
  experiment, a representation and a field count"; the factories are proved
  to agree with it.
- `experiments.dfy` (module `Experiments`): `ExperimentResult`, `ChartData`,
  the benchmark as an oracle (`Benchmark<D>`), the specification of a run
  (`Schedule`: the benchmark calls in order; `Points`: one series;
  `ExpectedChart`: the chart), lemmas about them, and the imperative
  `GenerateChartData` method with its loop and invariants. The two entry
  points `BuildChartDataForArrayCreation` and `BuildChartDataForMethodCall`
  call it with a fixed factory.

Modelling decisions:

- The benchmark (`IBenchmark.MeasureDurationInMs`) is not part of this model.
  It is a function parameter `benchmark(task, repetitionsCount, n)`. The result
  has an abstract type `D` (the source uses a `double` of milliseconds). `n` is
  the position of the measurement in the run, counting from 0. So two
  measurements of the same task may report different durations. The model
  claims nothing about the durations themselves (no sign, no monotonicity).
- `Constants.FieldCounts` is not part of this model; it becomes the parameter
  `fieldCounts`, in its configured order.
- The order of benchmark calls is recorded in a ghost out-parameter `calls`,
  one `Measurement(task, repetitionsCount)` per call.
- The source checks nothing about the repetition count or the field counts,
  and no member here requires anything of them. Positive values are only an
  expectation of the callers.
- The C# `List<ExperimentResult>` locals become `seq` locals that the loop
  reassigns. The `foreach` becomes a `for` loop over the indices.

## Model

| member | source | states |
|---|---|---|
| `TaskFactories.TaskFactory.CreateClassTask` | file.cs:59-82 | the class task of a factory is of the class representation, belongs to the factory's experiment and keeps the given field count unchanged |
| `TaskFactories.TaskFactory.CreateStructTask` | file.cs:64-87 | the struct task of a factory is of the struct representation, belongs to the factory's experiment and keeps the given field count unchanged |
| `TaskFactories.TaskPairDiffersOnlyInKind` | file.cs:57-93 | for one field count, the two tasks of a factory are the reference tasks of its experiment and differ in representation only |
| `TaskFactories.ChartTitleIdentifiesFactory` | file.cs:69-92 | the two factories' titles differ, so a chart's title tells which experiment produced it |
| `Experiments.Schedule` | file.cs:25-31 | a run over n field counts makes exactly 2n benchmark calls |
| `Experiments.Points` | file.cs:25-35 | a series has exactly one point per configured field count |
| `Experiments.ScheduleAt` | file.cs:27-31 | the call at position 2i times the class task of the i-th field count, the call at 2i+1 its struct task, both with the caller's repetition count |
| `Experiments.ScheduleInterleaves` | file.cs:25-31 | the whole call order is class(f0), struct(f0), class(f1), struct(f1), … |
| `Experiments.ScheduleUniform` | file.cs:25-31 | every call passes the caller's repetition count unchanged, times a task of the factory's experiment, and only for a configured field count |
| `Experiments.PointsAt` | file.cs:27-34 | point i of a series pairs the i-th field count with the benchmark's reading for that field count's task of the series' kind |
| `Experiments.PointsReadSchedule` | file.cs:30-34 | each duration stored is the reading of the call recorded at the matching position of the call order |
| `Experiments.PointsPrefix` | file.cs:22-35 | after the first k field counts, each list holds exactly the first k points of the finished series |
| `Experiments.SeriesAligned` | file.cs:22-42 | both series are as long as the field counts; at every index both hold the field count configured there (empty input, empty series) |
| `Experiments.SeriesDurations` | file.cs:30-34 | class point i holds the reading of call 2i, struct point i that of call 2i+1 |
| `Experiments.StructureIndependentOfTiming` | file.cs:20-43 | title, lengths and field counts of a chart are the same for any benchmark; only durations depend on it |
| `Experiments.GenerateChartData` | file.cs:20-43 | returns the specified chart and makes the specified calls; title is the factory's, series aligned with the field counts, durations read from calls 2i and 2i+1 |
| `Experiments.BuildChartDataForArrayCreation` | file.cs:8-11 | runs the array-creation factory: title "Array creation", and every call times an array-creation task |
| `Experiments.BuildChartDataForMethodCall` | file.cs:14-17 | runs the method-call factory: title "Method call with argument", and every call times a method-call task |

## Left out

- Real timing: `IBenchmark` and its stopwatch are not part of this model; the
  benchmark is an oracle parameter, and durations are of an abstract type, so
  floating point is not modelled.
- Task bodies (`ClassArrayCreationTask`, `StructArrayCreationTask`,
  `MethodCallWithClassArgumentTask`, `MethodCallWithStructArgumentTask`) are
  not part of this model; tasks are descriptors carrying their field count.
- Exceptions: a task or benchmark that throws aborts `GenerateChartData` in the
  source and no chart is returned; the model's oracle is total, so this path
  is not modelled.
- The values of `Constants.FieldCounts` are not part of this model; they are a
  parameter.
- Chart rendering, the program entry point, and concurrent use of the
  orchestrator are outside this model.
- `TaskFactories.TaskFactory.ChartTitle` carries no contract of its own; its two
  constants are stated by the two entry points and by
  `ChartTitleIdentifiesFactory`.
